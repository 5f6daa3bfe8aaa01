/** The UPS report descriptor in parts of a few items. For each part: its bytes, its items, the item
    state it ends in and the fields it declares, with a check that the four belong together. */
module HidDescriptor {
  import opened Bytes
  import opened HidItems
  import opened HidLayout

  const UPS := Usage(0x84, 0x04)
  const SUMMARY := [UPS, Usage(0x84, 0x24)]
  const OUTPUT := Usage(0x84, 0x1C)
  const INPUT := Usage(0x84, 0x1A)
  const PRESENT_STATUS := Usage(0x84, 0x02)

  /** `ups_hid_descriptor` */
  const DESCRIPTOR: seq<Byte> := REST_0

  const SCAN_0 := Begin

  const REST_0: seq<Byte> := BYTES_0 + REST_1
  const BYTES_0: seq<Byte> := [
    0x05, 0x84, 0x09, 0x04, 0xA1, 0x01, 0x09, 0x24, 0xA1, 0x00]
  const ITEMS_0: List<Item> :=
    Cons(Item(0, 1, 1, 0x84), Cons(Item(0, 2, 1, 0x04), Cons(Item(10, 0, 1, 0x01), Cons(Item(0, 2, 1, 0x24),
    Cons(Item(10, 0, 1, 0x00), Nil)))))
  const SCAN_1 :=
    Scan(0x84, 0, 0, 0, 0, 0, [], 0, SUMMARY, map[], 0, 0)
  const DECLS_0: List<Decl> :=
    Nil
  lemma Bytes0() ensures PrintedAt(ITEMS_0, BYTES_0, 0) {}
  lemma Scan0() ensures ScanAll(ITEMS_0, SCAN_0) == SCAN_1 && Decls(ITEMS_0, SCAN_0) == DECLS_0 {}

  const REST_1: seq<Byte> := BYTES_1 + REST_2
  const BYTES_1: seq<Byte> := [
    0x05, 0x84, 0x85, 0x01, 0x09, 0x25, 0x09, 0x1F, 0x75, 0x04, 0x95, 0x02, 0x15, 0x00]
  const ITEMS_1: List<Item> :=
    Cons(Item(0, 1, 1, 0x84), Cons(Item(8, 1, 1, 0x01), Cons(Item(0, 2, 1, 0x25), Cons(Item(0, 2, 1, 0x1F),
    Cons(Item(7, 1, 1, 0x04), Cons(Item(9, 1, 1, 0x02), Cons(Item(1, 1, 1, 0x00), Nil)))))))
  const SCAN_2 :=
    Scan(0x84, 0, 0, 4, 2, 1, [Usage(0x84, 0x25), Usage(0x84, 0x1F)], 0, SUMMARY, map[], 0, 0)
  const DECLS_1: List<Decl> :=
    Nil
  lemma Bytes1() ensures PrintedAt(ITEMS_1, BYTES_1, 0) {}
  lemma Scan1() ensures ScanAll(ITEMS_1, SCAN_1) == SCAN_2 && Decls(ITEMS_1, SCAN_1) == DECLS_1 {}

  const REST_2: seq<Byte> := BYTES_2 + REST_3
  const BYTES_2: seq<Byte> := [
    0x25, 0x0F, 0xB1, 0x03, 0x75, 0x08, 0x95, 0x01, 0x09, 0xFD, 0x79, 0x01, 0xB1, 0x03]
  const ITEMS_2: List<Item> :=
    Cons(Item(2, 1, 1, 0x0F), Cons(Item(11, 0, 1, 0x03), Cons(Item(7, 1, 1, 0x08), Cons(Item(9, 1, 1, 0x01),
    Cons(Item(0, 2, 1, 0xFD), Cons(Item(7, 2, 1, 0x01), Cons(Item(11, 0, 1, 0x03), Nil)))))))
  const SCAN_3 :=
    Scan(0x84, 0, 15, 8, 1, 1, [], 0, SUMMARY, map[1 := 24], 0, 0)
  const DECLS_2: List<Decl> :=
    Cons(Decl(1, SUMMARY, [Usage(0x84, 0x25), Usage(0x84, 0x1F)], 0, 8, 4, 2, 0, 15, 0, 0),
    Cons(Decl(1, SUMMARY, [Usage(0x84, 0xFD)], 1, 16, 8, 1, 0, 15, 0, 0),
    Nil))
  lemma Bytes2() ensures PrintedAt(ITEMS_2, BYTES_2, 0) {}
  lemma Scan2() ensures ScanAll(ITEMS_2, SCAN_2) == SCAN_3 && Decls(ITEMS_2, SCAN_2) == DECLS_2
  {
    var ds := Decls(ITEMS_2, SCAN_2);
    assert ds.head == DECLS_2.head;
    assert ds.tail.head == DECLS_2.tail.head;
  }

  const REST_3: seq<Byte> := BYTES_3 + REST_4
  const BYTES_3: seq<Byte> := [
    0x09, 0xFE, 0x79, 0x02, 0xB1, 0x03, 0x09, 0xFF, 0x79, 0x03, 0xB1, 0x03]
  const ITEMS_3: List<Item> :=
    Cons(Item(0, 2, 1, 0xFE), Cons(Item(7, 2, 1, 0x02), Cons(Item(11, 0, 1, 0x03), Cons(Item(0, 2, 1, 0xFF),
    Cons(Item(7, 2, 1, 0x03), Cons(Item(11, 0, 1, 0x03), Nil))))))
  const SCAN_4 :=
    Scan(0x84, 0, 15, 8, 1, 1, [], 0, SUMMARY, map[1 := 40], 0, 0)
  const DECLS_3: List<Decl> :=
    Cons(Decl(1, SUMMARY, [Usage(0x84, 0xFE)], 2, 24, 8, 1, 0, 15, 0, 0),
    Cons(Decl(1, SUMMARY, [Usage(0x84, 0xFF)], 3, 32, 8, 1, 0, 15, 0, 0),
    Nil))
  lemma Bytes3() ensures PrintedAt(ITEMS_3, BYTES_3, 0) {}
  lemma Scan3() ensures ScanAll(ITEMS_3, SCAN_3) == SCAN_4 && Decls(ITEMS_3, SCAN_3) == DECLS_3
  {
    var ds := Decls(ITEMS_3, SCAN_3);
    assert ds.head == DECLS_3.head;
    assert ds.tail.head == DECLS_3.tail.head;
  }

  const REST_4: seq<Byte> := BYTES_4 + REST_5
  const BYTES_4: seq<Byte> := [
    0x05, 0x85, 0x09, 0x89, 0xB1, 0x03, 0x09, 0x8F, 0xB1, 0x03, 0x09, 0x2C, 0xB1, 0x03]
  const ITEMS_4: List<Item> :=
    Cons(Item(0, 1, 1, 0x85), Cons(Item(0, 2, 1, 0x89), Cons(Item(11, 0, 1, 0x03), Cons(Item(0, 2, 1, 0x8F),
    Cons(Item(11, 0, 1, 0x03), Cons(Item(0, 2, 1, 0x2C), Cons(Item(11, 0, 1, 0x03), Nil)))))))
  const SCAN_5 :=
    Scan(0x85, 0, 15, 8, 1, 1, [], 0, SUMMARY, map[1 := 64], 0, 0)
  const DECLS_4: List<Decl> :=
    Cons(Decl(1, SUMMARY, [Usage(0x85, 0x89)], 0, 40, 8, 1, 0, 15, 0, 0),
    Cons(Decl(1, SUMMARY, [Usage(0x85, 0x8F)], 0, 48, 8, 1, 0, 15, 0, 0),
    Cons(Decl(1, SUMMARY, [Usage(0x85, 0x2C)], 0, 56, 8, 1, 0, 15, 0, 0),
    Nil)))
  lemma Bytes4() ensures PrintedAt(ITEMS_4, BYTES_4, 0) {}
  lemma Scan4() ensures ScanAll(ITEMS_4, SCAN_4) == SCAN_5 && Decls(ITEMS_4, SCAN_4) == DECLS_4
  {
    var ds := Decls(ITEMS_4, SCAN_4);
    assert ds.head == DECLS_4.head;
    assert ds.tail.head == DECLS_4.tail.head;
    assert ds.tail.tail.head == DECLS_4.tail.tail.head;
  }

  const REST_5: seq<Byte> := BYTES_5 + REST_6
  const BYTES_5: seq<Byte> := [
    0x85, 0x02, 0x05, 0x84, 0x09, 0x30, 0x75, 0x10, 0x95, 0x01, 0x26, 0xFF, 0x7F, 0x67, 0x21, 0xD1, 0xF0, 0x00]
  const ITEMS_5: List<Item> :=
    Cons(Item(8, 1, 1, 0x02), Cons(Item(0, 1, 1, 0x84), Cons(Item(0, 2, 1, 0x30), Cons(Item(7, 1, 1, 0x10),
    Cons(Item(9, 1, 1, 0x01), Cons(Item(2, 1, 2, 0x7FFF), Cons(Item(6, 1, 4, 0xF0D121), Nil)))))))
  const SCAN_6 :=
    Scan(0x84, 0, 32767, 16, 1, 2, [Usage(0x84, 0x30)], 0, SUMMARY, map[1 := 64], 0xF0D121, 0)
  const DECLS_5: List<Decl> :=
    Nil
  lemma Bytes5() ensures PrintedAt(ITEMS_5, BYTES_5, 0) {}
  lemma Scan5() ensures ScanAll(ITEMS_5, SCAN_5) == SCAN_6 && Decls(ITEMS_5, SCAN_5) == DECLS_5 {}

  const REST_6: seq<Byte> := BYTES_6 + REST_7
  const BYTES_6: seq<Byte> := [
    0x55, 0x04, 0xB1, 0x02, 0x09, 0x31, 0x67, 0x01, 0x00, 0x10, 0x00, 0x55, 0x0D, 0xB1, 0x02]
  const ITEMS_6: List<Item> :=
    Cons(Item(5, 1, 1, 0x04), Cons(Item(11, 0, 1, 0x02), Cons(Item(0, 2, 1, 0x31),
    Cons(Item(6, 1, 4, 0x100001), Cons(Item(5, 1, 1, 0x0D), Cons(Item(11, 0, 1, 0x02), Nil))))))
  const SCAN_7 :=
    Scan(0x84, 0, 32767, 16, 1, 2, [], 0, SUMMARY, map[1 := 64, 2 := 40], 0x100001, -3)
  const DECLS_6: List<Decl> :=
    Cons(Decl(2, SUMMARY, [Usage(0x84, 0x30)], 0, 8, 16, 1, 0, 32767, 0xF0D121, 4),
    Cons(Decl(2, SUMMARY, [Usage(0x84, 0x31)], 0, 24, 16, 1, 0, 32767, 0x100001, -3),
    Nil))
  lemma Bytes6() ensures PrintedAt(ITEMS_6, BYTES_6, 0) {}
  lemma Scan6() ensures ScanAll(ITEMS_6, SCAN_6) == SCAN_7 && Decls(ITEMS_6, SCAN_6) == DECLS_6
  {
    var ds := Decls(ITEMS_6, SCAN_6);
    assert ds.head == DECLS_6.head;
    assert ds.tail.head == DECLS_6.tail.head;
  }

  const REST_7: seq<Byte> := BYTES_7 + REST_8
  const BYTES_7: seq<Byte> := [
    0x05, 0x85, 0x09, 0x83, 0x09, 0x66, 0x09, 0x29, 0x09, 0x8C, 0x75, 0x08, 0x95, 0x04]
  const ITEMS_7: List<Item> :=
    Cons(Item(0, 1, 1, 0x85), Cons(Item(0, 2, 1, 0x83), Cons(Item(0, 2, 1, 0x66), Cons(Item(0, 2, 1, 0x29),
    Cons(Item(0, 2, 1, 0x8C), Cons(Item(7, 1, 1, 0x08), Cons(Item(9, 1, 1, 0x04), Nil)))))))
  const SCAN_8 :=
    Scan(0x85, 0, 32767, 8, 4, 2, [Usage(0x85, 0x83), Usage(0x85, 0x66), Usage(0x85, 0x29), Usage(0x85, 0x8C)],
     0, SUMMARY, map[1 := 64, 2 := 40], 0x100001, -3)
  const DECLS_7: List<Decl> :=
    Nil
  lemma Bytes7() ensures PrintedAt(ITEMS_7, BYTES_7, 0) {}
  lemma Scan7() ensures ScanAll(ITEMS_7, SCAN_7) == SCAN_8 && Decls(ITEMS_7, SCAN_7) == DECLS_7 {}

  const REST_8: seq<Byte> := BYTES_8 + REST_9
  const BYTES_8: seq<Byte> := [
    0x55, 0x00, 0x15, 0x00, 0x25, 0x64, 0xB1, 0x02]
  const ITEMS_8: List<Item> :=
    Cons(Item(5, 1, 1, 0x00), Cons(Item(1, 1, 1, 0x00), Cons(Item(2, 1, 1, 0x64), Cons(Item(11, 0, 1, 0x02),
    Nil))))
  const SCAN_9 :=
    Scan(0x85, 0, 100, 8, 4, 2, [], 0, SUMMARY, map[1 := 64, 2 := 72], 0x100001, 0)
  const DECLS_8: List<Decl> :=
    Cons(Decl(2, SUMMARY, [Usage(0x85, 0x83), Usage(0x85, 0x66), Usage(0x85, 0x29), Usage(0x85, 0x8C)],
     0, 40, 8, 4, 0, 100, 0x100001, 0),
    Nil)
  lemma Bytes8() ensures PrintedAt(ITEMS_8, BYTES_8, 0) {}
  lemma Scan8() ensures ScanAll(ITEMS_8, SCAN_8) == SCAN_9 && Decls(ITEMS_8, SCAN_8) == DECLS_8
  {
    var ds := Decls(ITEMS_8, SCAN_8);
    assert ds.head == DECLS_8.head;
  }

  const REST_9: seq<Byte> := BYTES_9 + REST_10
  const BYTES_9: seq<Byte> := [
    0x09, 0x68, 0x75, 0x10, 0x95, 0x01, 0x66, 0x01, 0x10, 0x55, 0x00, 0x27, 0xFE, 0xFF, 0x00, 0x00, 0xB1, 0x02]
  const ITEMS_9: List<Item> :=
    Cons(Item(0, 2, 1, 0x68), Cons(Item(7, 1, 1, 0x10), Cons(Item(9, 1, 1, 0x01), Cons(Item(6, 1, 2, 0x1001),
    Cons(Item(5, 1, 1, 0x00), Cons(Item(2, 1, 4, 0xFFFE), Cons(Item(11, 0, 1, 0x02), Nil)))))))
  const SCAN_10 :=
    Scan(0x85, 0, 65534, 16, 1, 2,
     [], 0, SUMMARY, map[1 := 64, 2 := 88], 0x1001, 0)
  const DECLS_9: List<Decl> :=
    Cons(Decl(2, SUMMARY, [Usage(0x85, 0x68)], 0, 72, 16, 1, 0, 65534, 0x1001, 0),
    Nil)
  lemma Bytes9() ensures PrintedAt(ITEMS_9, BYTES_9, 0) {}
  lemma Scan9() ensures ScanAll(ITEMS_9, SCAN_9) == SCAN_10 && Decls(ITEMS_9, SCAN_9) == DECLS_9
  {
    var ds := Decls(ITEMS_9, SCAN_9);
    assert ds.head == DECLS_9.head;
  }

  const REST_10: seq<Byte> := BYTES_10 + REST_11
  const BYTES_10: seq<Byte> := [
    0x05, 0x84, 0x09, 0x36, 0x75, 0x10, 0x95, 0x01, 0x67, 0x01, 0x00, 0x01, 0x00, 0x55, 0x0E, 0xB1, 0x02]
  const ITEMS_10: List<Item> :=
    Cons(Item(0, 1, 1, 0x84), Cons(Item(0, 2, 1, 0x36), Cons(Item(7, 1, 1, 0x10), Cons(Item(9, 1, 1, 0x01),
    Cons(Item(6, 1, 4, 0x10001), Cons(Item(5, 1, 1, 0x0E), Cons(Item(11, 0, 1, 0x02), Nil)))))))
  const SCAN_11 :=
    Scan(0x84, 0, 65534, 16, 1, 2, [], 0, SUMMARY, map[1 := 64, 2 := 104], 0x10001, -2)
  const DECLS_10: List<Decl> :=
    Cons(Decl(2, SUMMARY, [Usage(0x84, 0x36)], 0, 88, 16, 1, 0, 65534, 0x10001, -2),
    Nil)
  lemma Bytes10() ensures PrintedAt(ITEMS_10, BYTES_10, 0) {}
  lemma Scan10() ensures ScanAll(ITEMS_10, SCAN_10) == SCAN_11 && Decls(ITEMS_10, SCAN_10) == DECLS_10
  {
    var ds := Decls(ITEMS_10, SCAN_10);
    assert ds.head == DECLS_10.head;
  }

  const REST_11: seq<Byte> := BYTES_11 + REST_12
  const BYTES_11: seq<Byte> := [
    0x09, 0x1C, 0xA1, 0x00]
  const ITEMS_11: List<Item> :=
    Cons(Item(0, 2, 1, 0x1C), Cons(Item(10, 0, 1, 0x00), Nil))
  const SCAN_12 :=
    Scan(0x84, 0, 65534, 16, 1, 2, [], 0, SUMMARY + [OUTPUT], map[1 := 64, 2 := 104], 0x10001, -2)
  const DECLS_11: List<Decl> :=
    Nil
  lemma Bytes11() ensures PrintedAt(ITEMS_11, BYTES_11, 0) {}
  lemma Scan11() ensures ScanAll(ITEMS_11, SCAN_11) == SCAN_12 && Decls(ITEMS_11, SCAN_11) == DECLS_11 {}

  const REST_12: seq<Byte> := BYTES_12 + REST_13
  const BYTES_12: seq<Byte> := [
    0x09, 0x30, 0x75, 0x10, 0x95, 0x01, 0x67, 0x21, 0xD1, 0xF0, 0x00, 0x55, 0x05, 0xB1, 0x02]
  const ITEMS_12: List<Item> :=
    Cons(Item(0, 2, 1, 0x30), Cons(Item(7, 1, 1, 0x10), Cons(Item(9, 1, 1, 0x01), Cons(Item(6, 1, 4, 0xF0D121),
    Cons(Item(5, 1, 1, 0x05), Cons(Item(11, 0, 1, 0x02), Nil))))))
  const SCAN_13 :=
    Scan(0x84, 0, 65534, 16, 1, 2, [], 0, SUMMARY + [OUTPUT], map[1 := 64, 2 := 120], 0xF0D121, 5)
  const DECLS_12: List<Decl> :=
    Cons(Decl(2, SUMMARY + [OUTPUT], [Usage(0x84, 0x30)], 0, 104, 16, 1, 0, 65534, 0xF0D121, 5),
    Nil)
  lemma Bytes12() ensures PrintedAt(ITEMS_12, BYTES_12, 0) {}
  lemma Scan12() ensures ScanAll(ITEMS_12, SCAN_12) == SCAN_13 && Decls(ITEMS_12, SCAN_12) == DECLS_12
  {
    var ds := Decls(ITEMS_12, SCAN_12);
    assert ds.head == DECLS_12.head;
  }

  const REST_13: seq<Byte> := BYTES_13 + REST_14
  const BYTES_13: seq<Byte> := [
    0x09, 0x31, 0x67, 0x01, 0x00, 0x10, 0x00, 0x55, 0x0E, 0xB1, 0x02, 0xC0, 0x09, 0x1A, 0xA1, 0x00]
  const ITEMS_13: List<Item> :=
    Cons(Item(0, 2, 1, 0x31), Cons(Item(6, 1, 4, 0x100001), Cons(Item(5, 1, 1, 0x0E),
    Cons(Item(11, 0, 1, 0x02), Cons(Item(12, 0, 0, 0x00), Cons(Item(0, 2, 1, 0x1A), Cons(Item(10, 0, 1, 0x00),
    Nil)))))))
  const SCAN_14 :=
    Scan(0x84, 0, 65534, 16, 1, 2, [], 0, SUMMARY + [INPUT], map[1 := 64, 2 := 136], 0x100001, -2)
  const DECLS_13: List<Decl> :=
    Cons(Decl(2, SUMMARY + [OUTPUT], [Usage(0x84, 0x31)], 0, 120, 16, 1, 0, 65534, 0x100001, -2),
    Nil)
  lemma Bytes13() ensures PrintedAt(ITEMS_13, BYTES_13, 0) {}
  lemma Scan13() ensures ScanAll(ITEMS_13, SCAN_13) == SCAN_14 && Decls(ITEMS_13, SCAN_13) == DECLS_13
  {
    var ds := Decls(ITEMS_13, SCAN_13);
    assert ds.head == DECLS_13.head;
  }

  const REST_14: seq<Byte> := BYTES_14 + REST_15
  const BYTES_14: seq<Byte> := [
    0x09, 0x30, 0x75, 0x10, 0x95, 0x01, 0x67, 0x21, 0xD1, 0xF0, 0x00, 0x55, 0x05, 0xB1, 0x02]
  const ITEMS_14: List<Item> :=
    Cons(Item(0, 2, 1, 0x30), Cons(Item(7, 1, 1, 0x10), Cons(Item(9, 1, 1, 0x01), Cons(Item(6, 1, 4, 0xF0D121),
    Cons(Item(5, 1, 1, 0x05), Cons(Item(11, 0, 1, 0x02), Nil))))))
  const SCAN_15 :=
    Scan(0x84, 0, 65534, 16, 1, 2, [], 0, SUMMARY + [INPUT], map[1 := 64, 2 := 152], 0xF0D121, 5)
  const DECLS_14: List<Decl> :=
    Cons(Decl(2, SUMMARY + [INPUT], [Usage(0x84, 0x30)], 0, 136, 16, 1, 0, 65534, 0xF0D121, 5),
    Nil)
  lemma Bytes14() ensures PrintedAt(ITEMS_14, BYTES_14, 0) {}
  lemma Scan14() ensures ScanAll(ITEMS_14, SCAN_14) == SCAN_15 && Decls(ITEMS_14, SCAN_14) == DECLS_14
  {
    var ds := Decls(ITEMS_14, SCAN_14);
    assert ds.head == DECLS_14.head;
  }

  const REST_15: seq<Byte> := BYTES_15 + REST_16
  const BYTES_15: seq<Byte> := [
    0x09, 0x31, 0x67, 0x01, 0x00, 0x10, 0x00, 0x55, 0x0E, 0xB1, 0x02, 0xC0, 0x09, 0x02, 0xA1, 0x00]
  const ITEMS_15: List<Item> :=
    Cons(Item(0, 2, 1, 0x31), Cons(Item(6, 1, 4, 0x100001), Cons(Item(5, 1, 1, 0x0E),
    Cons(Item(11, 0, 1, 0x02), Cons(Item(12, 0, 0, 0x00), Cons(Item(0, 2, 1, 0x02), Cons(Item(10, 0, 1, 0x00),
    Nil)))))))
  const SCAN_16 :=
    Scan(0x84, 0, 65534, 16, 1, 2, [], 0, SUMMARY + [PRESENT_STATUS], map[1 := 64, 2 := 168], 0x100001, -2)
  const DECLS_15: List<Decl> :=
    Cons(Decl(2, SUMMARY + [INPUT], [Usage(0x84, 0x31)], 0, 152, 16, 1, 0, 65534, 0x100001, -2),
    Nil)
  lemma Bytes15() ensures PrintedAt(ITEMS_15, BYTES_15, 0) {}
  lemma Scan15() ensures ScanAll(ITEMS_15, SCAN_15) == SCAN_16 && Decls(ITEMS_15, SCAN_15) == DECLS_15
  {
    var ds := Decls(ITEMS_15, SCAN_15);
    assert ds.head == DECLS_15.head;
  }

  const REST_16: seq<Byte> := BYTES_16 + REST_17
  const BYTES_16: seq<Byte> := [
    0x05, 0x84, 0x09, 0x61, 0x09, 0x62, 0x09, 0x65, 0x09, 0x67, 0x09, 0x69, 0x05, 0x85]
  const ITEMS_16: List<Item> :=
    Cons(Item(0, 1, 1, 0x84), Cons(Item(0, 2, 1, 0x61), Cons(Item(0, 2, 1, 0x62), Cons(Item(0, 2, 1, 0x65),
    Cons(Item(0, 2, 1, 0x67), Cons(Item(0, 2, 1, 0x69), Cons(Item(0, 1, 1, 0x85), Nil)))))))
  const SCAN_17 :=
    Scan(0x85, 0, 65534, 16, 1, 2,
     [Usage(0x84, 0x61), Usage(0x84, 0x62), Usage(0x84, 0x65), Usage(0x84, 0x67), Usage(0x84, 0x69)],
     0, SUMMARY + [PRESENT_STATUS], map[1 := 64, 2 := 168], 0x100001, -2)
  const DECLS_16: List<Decl> :=
    Nil
  lemma Bytes16() ensures PrintedAt(ITEMS_16, BYTES_16, 0) {}
  lemma Scan16() ensures ScanAll(ITEMS_16, SCAN_16) == SCAN_17 && Decls(ITEMS_16, SCAN_16) == DECLS_16 {}

  const REST_17: seq<Byte> := BYTES_17 + REST_18
  const BYTES_17: seq<Byte> := [
    0x09, 0x42, 0x09, 0x43, 0x09, 0x44, 0x09, 0x45, 0x09, 0x4B, 0x09, 0xD0, 0x09, 0xD1]
  const ITEMS_17: List<Item> :=
    Cons(Item(0, 2, 1, 0x42), Cons(Item(0, 2, 1, 0x43), Cons(Item(0, 2, 1, 0x44), Cons(Item(0, 2, 1, 0x45),
    Cons(Item(0, 2, 1, 0x4B), Cons(Item(0, 2, 1, 0xD0), Cons(Item(0, 2, 1, 0xD1), Nil)))))))
  const SCAN_18 :=
    Scan(0x85, 0, 65534, 16, 1, 2,
     [Usage(0x84, 0x61), Usage(0x84, 0x62), Usage(0x84, 0x65), Usage(0x84, 0x67), Usage(0x84, 0x69),
      Usage(0x85, 0x42), Usage(0x85, 0x43), Usage(0x85, 0x44), Usage(0x85, 0x45),
      Usage(0x85, 0x4B), Usage(0x85, 0xD0), Usage(0x85, 0xD1)],
     0, SUMMARY + [PRESENT_STATUS], map[1 := 64, 2 := 168], 0x100001, -2)
  const DECLS_17: List<Decl> :=
    Nil
  lemma Bytes17() ensures PrintedAt(ITEMS_17, BYTES_17, 0) {}
  lemma Scan17() ensures ScanAll(ITEMS_17, SCAN_17) == SCAN_18 && Decls(ITEMS_17, SCAN_17) == DECLS_17 {}

  const REST_18: seq<Byte> := BYTES_18 + REST_19
  const BYTES_18: seq<Byte> := [
    0x65, 0x00, 0x55, 0x00, 0x25, 0x01, 0x75, 0x01, 0x95, 0x0C, 0xB1, 0x83]
  const ITEMS_18: List<Item> :=
    Cons(Item(6, 1, 1, 0x00), Cons(Item(5, 1, 1, 0x00), Cons(Item(2, 1, 1, 0x01), Cons(Item(7, 1, 1, 0x01),
    Cons(Item(9, 1, 1, 0x0C), Cons(Item(11, 0, 1, 0x83), Nil))))))
  const SCAN_19 :=
    Scan(0x85, 0, 1, 1, 12, 2, [], 0, SUMMARY + [PRESENT_STATUS], map[1 := 64, 2 := 180], 0, 0)
  const DECLS_18: List<Decl> :=
    Cons(Decl(2, SUMMARY + [PRESENT_STATUS],
     [Usage(0x84, 0x61), Usage(0x84, 0x62), Usage(0x84, 0x65), Usage(0x84, 0x67), Usage(0x84, 0x69),
      Usage(0x85, 0x42), Usage(0x85, 0x43), Usage(0x85, 0x44), Usage(0x85, 0x45),
      Usage(0x85, 0x4B), Usage(0x85, 0xD0), Usage(0x85, 0xD1)],
     0, 168, 1, 12, 0, 1, 0, 0),
    Nil)
  lemma Bytes18() ensures PrintedAt(ITEMS_18, BYTES_18, 0) {}
  lemma Scan18() ensures ScanAll(ITEMS_18, SCAN_18) == SCAN_19 && Decls(ITEMS_18, SCAN_18) == DECLS_18
  {
    var ds := Decls(ITEMS_18, SCAN_18);
    assert ds.head == DECLS_18.head;
  }

  const REST_19: seq<Byte> := BYTES_19 + REST_20
  const BYTES_19: seq<Byte> := [
    0x95, 0x04, 0xB1, 0x83, 0xC0]
  const ITEMS_19: List<Item> :=
    Cons(Item(9, 1, 1, 0x04), Cons(Item(11, 0, 1, 0x83), Cons(Item(12, 0, 0, 0x00), Nil)))
  const SCAN_20 :=
    Scan(0x85, 0, 1, 1, 4, 2, [], 0, SUMMARY, map[1 := 64, 2 := 184], 0, 0)
  const DECLS_19: List<Decl> :=
    Cons(Decl(2, SUMMARY + [PRESENT_STATUS], [], 0, 180, 1, 4, 0, 1, 0, 0),
    Nil)
  lemma Bytes19() ensures PrintedAt(ITEMS_19, BYTES_19, 0) {}
  lemma Scan19() ensures ScanAll(ITEMS_19, SCAN_19) == SCAN_20 && Decls(ITEMS_19, SCAN_19) == DECLS_19
  {
    var ds := Decls(ITEMS_19, SCAN_19);
    assert ds.head == DECLS_19.head;
  }

  const REST_20: seq<Byte> := BYTES_20 + REST_21
  const BYTES_20: seq<Byte> := [
    0x85, 0x03, 0x05, 0x85, 0x09, 0x67, 0x75, 0x08, 0x95, 0x01, 0x55, 0x00, 0x15, 0x00]
  const ITEMS_20: List<Item> :=
    Cons(Item(8, 1, 1, 0x03), Cons(Item(0, 1, 1, 0x85), Cons(Item(0, 2, 1, 0x67), Cons(Item(7, 1, 1, 0x08),
    Cons(Item(9, 1, 1, 0x01), Cons(Item(5, 1, 1, 0x00), Cons(Item(1, 1, 1, 0x00), Nil)))))))
  const SCAN_21 :=
    Scan(0x85, 0, 1, 8, 1, 3, [Usage(0x85, 0x67)], 0, SUMMARY, map[1 := 64, 2 := 184], 0, 0)
  const DECLS_20: List<Decl> :=
    Nil
  lemma Bytes20() ensures PrintedAt(ITEMS_20, BYTES_20, 0) {}
  lemma Scan20() ensures ScanAll(ITEMS_20, SCAN_20) == SCAN_21 && Decls(ITEMS_20, SCAN_20) == DECLS_20 {}

  const REST_21: seq<Byte> := BYTES_21
  const BYTES_21: seq<Byte> := [
    0x25, 0x64, 0xB1, 0x02, 0xC0, 0xC0]
  const ITEMS_21: List<Item> :=
    Cons(Item(2, 1, 1, 0x64), Cons(Item(11, 0, 1, 0x02), Cons(Item(12, 0, 0, 0x00), Cons(Item(12, 0, 0, 0x00),
    Nil))))
  const SCAN_22 :=
    Scan(0x85, 0, 100, 8, 1, 3, [], 0, [], map[1 := 64, 2 := 184, 3 := 16], 0, 0)
  const DECLS_21: List<Decl> :=
    Cons(Decl(3, SUMMARY, [Usage(0x85, 0x67)], 0, 8, 8, 1, 0, 100, 0, 0),
    Nil)
  lemma Bytes21() ensures PrintedAt(ITEMS_21, BYTES_21, 0) {}
  lemma Scan21() ensures ScanAll(ITEMS_21, SCAN_21) == SCAN_22 && Decls(ITEMS_21, SCAN_21) == DECLS_21
  {
    var ds := Decls(ITEMS_21, SCAN_21);
    assert ds.head == DECLS_21.head;
  }

  const END := SCAN_22

  const DESCRIPTOR_LENGTH := 285

  /** `ups_hid_descriptor_len` */
  lemma DescriptorLength()
    ensures |DESCRIPTOR| == DESCRIPTOR_LENGTH
  {
    assert |REST_21| == 6; assert |REST_20| == 20; assert |REST_19| == 25; assert |REST_18| == 37;
    assert |REST_17| == 51; assert |REST_16| == 65; assert |REST_15| == 81; assert |REST_14| == 96;
    assert |REST_13| == 112; assert |REST_12| == 127; assert |REST_11| == 131; assert |REST_10| == 148;
    assert |REST_9| == 166; assert |REST_8| == 174; assert |REST_7| == 188; assert |REST_6| == 203;
    assert |REST_5| == 221; assert |REST_4| == 235; assert |REST_3| == 247; assert |REST_2| == 261;
    assert |REST_1| == 275; assert |REST_0| == 285;
  }
}
