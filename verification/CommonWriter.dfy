/** Writing single fields in place (the fastWriteField and fieldLength functions shared by the
    records of idl/kitex_gen/common/k-common.go), and how they add up to a record. */
module CommonWriter {
  import opened Wrappers
  import opened ThriftBinary
  import opened ThriftWriter
  import opened CommonRecords
  import opened CommonReader
  import opened CommonFormat

  /** The bytes of one field with a value. */
  function FieldBytes(id: int, v: Val): seq<byte> {
    EncodeField(Field(id, WireOf(v)))
  }

  /** What is written for one field of a record: nothing if it is an unset optional one. */
  function PieceBytes(r: Record, id: int): seq<byte> {
    EncodeFields(Written(r, id))
  }

  /** The first k fields in writing order. */
  function Upto(r: Record, k: nat): seq<byte>
    requires k <= |Order(KindOf(r))|
  {
    EncodeFields(WrittenAll(r, Order(KindOf(r))[..k]))
  }

  lemma PieceIsField(r: Record, id: int)
    ensures Get(r, id).Some? ==> PieceBytes(r, id) == FieldBytes(id, Get(r, id).value)
    ensures Get(r, id).None? ==> PieceBytes(r, id) == []
  {
    hide EncodeField, WireOf, Get;
    if Get(r, id).Some? {
      var f := Field(id, WireOf(Get(r, id).value));
      assert [f][1..] == [];
      assert EncodeFields([f]) == EncodeField(f) + EncodeFields([]);
    }
  }

  lemma UptoNext(r: Record, k: nat)
    requires k < |Order(KindOf(r))|
    ensures Upto(r, k + 1) == Upto(r, k) + PieceBytes(r, Order(KindOf(r))[k])
  {
    hide Written, Order;
    var ids := Order(KindOf(r))[..k + 1];
    assert ids[..k] == Order(KindOf(r))[..k];
    EncodeAppend(WrittenAll(r, ids[..k]), Written(r, ids[k]));
  }

  lemma {:induction false} UptoGrows(r: Record, k: nat)
    requires k <= |Order(KindOf(r))|
    ensures |Upto(r, k)| < |Bytes(r)|
    decreases |Order(KindOf(r))| - k
  {
    hide WrittenAll, Order;
    if k == |Order(KindOf(r))| {
      assert Order(KindOf(r))[..k] == Order(KindOf(r));
    } else {
      UptoNext(r, k);
      UptoGrows(r, k + 1);
    }
  }

  /** k fields have been written from `start` on, and the rest has room. */
  ghost predicate Progress(r: Record, k: nat, before: seq<byte>, after: seq<byte>, start: nat, off: nat) {
    && k <= |Order(KindOf(r))|
    && start + |Bytes(r)| <= |before|
    && Wrote(before, after, start, off, Upto(r, k))
  }

  lemma Begun(r: Record, before: seq<byte>, start: nat)
    requires start + |Bytes(r)| <= |before|
    ensures Progress(r, 0, before, before, start, start)
    ensures 0 < |Order(KindOf(r))|
  {
    hide Bytes;
    NothingWrote(before, start);
    assert Order(KindOf(r))[..0] == [];
  }

  /** There is room for the next field, or for STOP after the last one. */
  lemma HasRoom(r: Record, k: nat, before: seq<byte>, after: seq<byte>, start: nat, off: nat)
    requires Progress(r, k, before, after, start, off)
    ensures |after| == |before| && off < |after|
    ensures k < |Order(KindOf(r))| ==> off + |PieceBytes(r, Order(KindOf(r))[k])| < |after|
  {
    hide Upto, Bytes, PieceBytes, Order;
    UptoGrows(r, k);
    if k < |Order(KindOf(r))| {
      UptoNext(r, k);
      UptoGrows(r, k + 1);
    }
  }

  lemma Advanced(r: Record, k: nat, before: seq<byte>, mid: seq<byte>, after: seq<byte>, start: nat, off: nat, next: nat)
    requires Progress(r, k, before, mid, start, off) && k < |Order(KindOf(r))|
    requires Wrote(mid, after, off, next, PieceBytes(r, Order(KindOf(r))[k]))
    ensures Progress(r, k + 1, before, after, start, next)
  {
    hide Upto, Bytes, PieceBytes, Order, Wrote;
    UptoNext(r, k);
    WroteBoth(before, mid, after, start, off, next, Upto(r, k), PieceBytes(r, Order(KindOf(r))[k]));
  }

  lemma Finished(r: Record, before: seq<byte>, mid: seq<byte>, after: seq<byte>, start: nat, off: nat, next: nat)
    requires Progress(r, |Order(KindOf(r))|, before, mid, start, off) && Wrote(mid, after, off, next, [STOP])
    ensures Wrote(before, after, start, next, Bytes(r))
  {
    hide Wrote, WrittenAll, Order;
    var n := |Order(KindOf(r))|;
    assert Order(KindOf(r))[..n] == Order(KindOf(r));
    WroteBoth(before, mid, after, start, off, next, Upto(r, n), [STOP]);
  }

  /** MAIN RESULT of the writer: a record written into a buffer is read back from there,
      whatever the buffer held before and behind it. */
  lemma WrittenReadsBack(r: Record, before: seq<byte>, after: seq<byte>, start: nat, next: nat)
    requires Wrote(before, after, start, next, Bytes(r))
    ensures ReadRecord(Empty(KindOf(r)), after, start) == (r, Some(next))
  {
    hide Bytes, ReadRecord, Empty;
    WroteAt(before, after, start, next, Bytes(r));
    RoundTrip(r, after, start);
  }

  // ----------------------------------------------------------------- single fields

  lemma FieldParts(id: int, v: Val)
    ensures FieldBytes(id, v) == [TypeOfShape(ShapeOf(v))] + BigEndian(2, id) + Encode(WireOf(v))
    ensures v.V64? ==> Encode(WireOf(v)) == BigEndian(8, v.n)
    ensures v.V16? ==> Encode(WireOf(v)) == BigEndian(2, v.h)
    ensures v.VByte? ==> Encode(WireOf(v)) == BigEndian(1, v.b)
    ensures v.VStr? ==> Encode(WireOf(v)) == SizeBytes(|v.s|) + v.s
    ensures v.VIds? ==> Encode(WireOf(v)) == [I64] + SizeBytes(|v.ids|) + EncodeItems(IdWires(v.ids))
    ensures v.VStats? ==> Encode(WireOf(v)) == [STRUCT] + SizeBytes(|v.stats|) + EncodeItems(StatWires(v.stats))
    ensures v.VRec? ==> Encode(WireOf(v)) == Bytes(v.rec)
  {
    hide EncodeItems, EncodeFields, IdWires, StatWires, FieldsOf, BigEndian;
  }

  method WriteIntField(buf: array<byte>, off: nat, ty: byte, id: int, n: nat, x: int) returns (next: nat)
    requires off + 3 + n <= buf.Length
    modifies buf
    ensures Wrote(old(buf[..]), buf[..], off, next, [ty] + BigEndian(2, id) + BigEndian(n, x))
  {
    var mid := WriteFieldBegin(buf, off, ty, id);
    ghost var b := buf[..];
    next := WriteInt(buf, mid, n, x);
    WroteBoth(old(buf[..]), b, buf[..], off, mid, next, [ty] + BigEndian(2, id), BigEndian(n, x));
  }

  method WriteI64Field(buf: array<byte>, off: nat, id: int, x: i64) returns (next: nat)
    requires off + |FieldBytes(id, V64(x))| <= buf.Length
    modifies buf
    ensures Wrote(old(buf[..]), buf[..], off, next, FieldBytes(id, V64(x)))
  {
    FieldParts(id, V64(x));
    next := WriteIntField(buf, off, I64, id, 8, x);
  }

  method WriteI16Field(buf: array<byte>, off: nat, id: int, x: i16) returns (next: nat)
    requires off + |FieldBytes(id, V16(x))| <= buf.Length
    modifies buf
    ensures Wrote(old(buf[..]), buf[..], off, next, FieldBytes(id, V16(x)))
  {
    FieldParts(id, V16(x));
    next := WriteIntField(buf, off, I16, id, 2, x);
  }

  method WriteByteField(buf: array<byte>, off: nat, id: int, x: i8) returns (next: nat)
    requires off + |FieldBytes(id, VByte(x))| <= buf.Length
    modifies buf
    ensures Wrote(old(buf[..]), buf[..], off, next, FieldBytes(id, VByte(x)))
  {
    FieldParts(id, VByte(x));
    next := WriteIntField(buf, off, BYTE, id, 1, x);
  }

  method WriteStringField(buf: array<byte>, off: nat, id: int, s: Str) returns (next: nat)
    requires off + |FieldBytes(id, VStr(s))| <= buf.Length
    modifies buf
    ensures Wrote(old(buf[..]), buf[..], off, next, FieldBytes(id, VStr(s)))
  {
    FieldParts(id, VStr(s));
    var mid := WriteFieldBegin(buf, off, STRING, id);
    ghost var b := buf[..];
    next := WriteString(buf, mid, s);
    WroteBoth(old(buf[..]), b, buf[..], off, mid, next, [STRING] + BigEndian(2, id), SizeBytes(|s|) + s);
  }

  /** The elements of an id list, behind the place of its header. */
  method WriteIds(buf: array<byte>, off: nat, ids: Ids) returns (next: nat)
    requires off + 8 * |ids| <= buf.Length
    modifies buf
    ensures Wrote(old(buf[..]), buf[..], off, next, EncodeItems(IdWires(ids)))
  {
    NothingWrote(buf[..], off);
    next := off;
    for i := 0 to |ids|
      invariant Wrote(old(buf[..]), buf[..], off, next, EncodeItems(IdWires(ids[..i]))) && next == off + 8 * i
    {
      ghost var b, mid := buf[..], next;
      next := WriteInt(buf, next, 8, ids[i]);
      WroteBoth(old(buf[..]), b, buf[..], off, mid, next, EncodeItems(IdWires(ids[..i])), BigEndian(8, ids[i]));
      assert ids[..i + 1] == ids[..i] + [ids[i]];
      IdsSnoc(ids[..i], ids[i]);
    }
    assert ids[..|ids|] == ids;
  }

  lemma {:induction false} IdsSnoc(ids: seq<i64>, x: i64)
    ensures EncodeItems(IdWires(ids + [x])) == EncodeItems(IdWires(ids)) + BigEndian(8, x)
  {
    if ids == [] {
      assert ids + [x] == [x] && [x][1..] == [];
      assert IdWires([x])[1..] == [];
    } else {
      assert (ids + [x])[1..] == ids[1..] + [x];
      IdsSnoc(ids[1..], x);
    }
  }

  lemma {:induction false} IdsLength(ids: seq<i64>)
    ensures |EncodeItems(IdWires(ids))| == 8 * |ids|
  {
    if ids != [] { IdsLength(ids[1..]); }
  }

  /** A list header is patched in once the elements have been written and counted. */
  method WriteIdsField(buf: array<byte>, off: nat, id: int, ids: Ids) returns (next: nat)
    requires off + |FieldBytes(id, VIds(ids))| <= buf.Length
    modifies buf
    ensures Wrote(old(buf[..]), buf[..], off, next, FieldBytes(id, VIds(ids)))
  {
    FieldParts(id, VIds(ids));
    IdsLength(ids);
    var listBegin := WriteFieldBegin(buf, off, LIST, id);
    ghost var b := buf[..];
    next := WriteIds(buf, listBegin + 5, ids);
    ghost var c := buf[..];
    var mid := WriteListBegin(buf, listBegin, I64, |ids|);
    BackPatched(b, c, buf[..], listBegin, mid, next, [I64] + SizeBytes(|ids|), EncodeItems(IdWires(ids)));
    WroteBoth(old(buf[..]), b, buf[..], off, listBegin, next, [LIST] + BigEndian(2, id),
              [I64] + SizeBytes(|ids|) + EncodeItems(IdWires(ids)));
  }

  // ----------------------------------------------------------------------- lengths

  function SizeOf(v: Val): nat {
    match v
    case VByte(_) => 1
    case V16(_) => 2
    case V64(_) => 8
    case VStr(s) => 4 + |s|
    case VIds(ids) => 5 + 8 * |ids|
    case VStats(stats) => 5 + StatsSize(stats)
    case VRec(r) => |Bytes(r)|
  }

  function StatsSize(stats: seq<QuizStat>): nat {
    if stats == [] then 0 else StatsSize(stats[..|stats| - 1]) + |Bytes(RStat(stats[|stats| - 1]))|
  }

  lemma {:induction false} StatsSnoc(stats: seq<QuizStat>, x: QuizStat)
    ensures EncodeItems(StatWires(stats + [x])) == EncodeItems(StatWires(stats)) + Bytes(RStat(x))
  {
    hide FieldsOf;
    if stats == [] {
      assert stats + [x] == [x] && [x][1..] == [];
      assert StatWires([x])[1..] == [];
      assert EncodeItems(StatWires([x])) == Bytes(RStat(x)) + EncodeItems([]);
    } else {
      assert (stats + [x])[1..] == stats[1..] + [x];
      StatsSnoc(stats[1..], x);
      assert StatWires(stats + [x])[1..] == StatWires(stats[1..] + [x]);
    }
  }

  lemma {:induction false} StatsLength(stats: seq<QuizStat>)
    ensures |EncodeItems(StatWires(stats))| == StatsSize(stats)
  {
    hide Bytes, EncodeItems, StatWires;
    if stats == [] {
      NoStats();
    } else {
      var n := |stats| - 1;
      StatsLength(stats[..n]);
      StatsSnoc(stats[..n], stats[n]);
      assert stats[..n] + [stats[n]] == stats;
    }
  }

  lemma NoStats()
    ensures EncodeItems(StatWires([])) == []
  {
  }

  lemma FieldLength(id: int, v: Val)
    ensures |FieldBytes(id, v)| == 3 + SizeOf(v)
  {
    hide EncodeItems, Encode, WireOf, FieldBytes, Bytes, IdWires, StatWires;
    FieldParts(id, v);
    match v
    case VIds(ids) => IdsLength(ids);
    case VStats(stats) => StatsLength(stats);
    case _ =>
  }

  function PieceSize(r: Record, id: int): nat {
    if Get(r, id).None? then 0 else 3 + SizeOf(Get(r, id).value)
  }

  function SizeOfAll(r: Record, ids: seq<int>): nat {
    if ids == [] then 0 else SizeOfAll(r, ids[..|ids| - 1]) + PieceSize(r, ids[|ids| - 1])
  }

  lemma {:induction false} AllLength(r: Record, ids: seq<int>)
    ensures |EncodeFields(WrittenAll(r, ids))| == SizeOfAll(r, ids)
  {
    hide Written, PieceSize, PieceBytes;
    if ids != [] {
      var front, id := ids[..|ids| - 1], ids[|ids| - 1];
      AllLength(r, front);
      EncodeAppend(WrittenAll(r, front), Written(r, id));
      PieceLength(r, id);
    }
  }

  lemma PieceLength(r: Record, id: int)
    ensures |EncodeFields(Written(r, id))| == PieceSize(r, id)
  {
    hide Written, FieldBytes, SizeOf, Get;
    PieceIsField(r, id);
    if Get(r, id).Some? { FieldLength(id, Get(r, id).value); }
  }

  /** The length of a record is that of its fields plus STOP. */
  lemma RecordLength(r: Record)
    ensures |Bytes(r)| == SizeOfAll(r, Order(KindOf(r))) + 1
  {
    AllLength(r, Order(KindOf(r)));
    hide WrittenAll, SizeOfAll, Order;
  }

  lemma SizeAppend(r: Record, a: seq<int>, b: seq<int>)
    ensures SizeOfAll(r, a + b) == SizeOfAll(r, a) + SizeOfAll(r, b)
  {
    hide PieceSize;
    if b == [] {
      assert a + b == a;
    } else {
      assert (a + b)[..|a + b| - 1] == a + b[..|b| - 1];
      SizeAppend(r, a, b[..|b| - 1]);
    }
  }

  lemma SizeOfTwo(r: Record, i: int, j: int)
    ensures SizeOfAll(r, [i]) == PieceSize(r, i)
    ensures SizeOfAll(r, [i, j]) == PieceSize(r, i) + PieceSize(r, j)
  {
    assert [i, j][..1] == [i] && [i][..0] == [];
    assert SizeOfAll(r, []) == 0;
  }

  lemma SizeOfFour(r: Record, i: int, j: int, k: int, l: int)
    ensures SizeOfAll(r, [i, j, k, l]) == PieceSize(r, i) + PieceSize(r, j) + PieceSize(r, k) + PieceSize(r, l)
  {
    hide PieceSize, SizeOfAll;
    SizeOfTwo(r, i, j);
    SizeOfTwo(r, k, l);
    SizeAppend(r, [i, j], [k, l]);
    assert [i, j] + [k, l] == [i, j, k, l];
  }

  /** The length of a record, its fields taken in the order of their ids. */
  function LengthById(r: Record): nat {
    match KindOf(r)
    case KResp => PieceSize(r, 1) + PieceSize(r, 2) + PieceSize(r, 3) + 1
    case KUser => PieceSize(r, 1) + PieceSize(r, 2) + PieceSize(r, 3) + PieceSize(r, 4) + 1
    case KLesson =>
      PieceSize(r, 1) + PieceSize(r, 2) + PieceSize(r, 3) + PieceSize(r, 4) + PieceSize(r, 5) + PieceSize(r, 6) + 1
    case KQuiz =>
      PieceSize(r, 1) + PieceSize(r, 2) + PieceSize(r, 3) + PieceSize(r, 4)
      + PieceSize(r, 5) + PieceSize(r, 6) + PieceSize(r, 7) + PieceSize(r, 8) + 1
    case KStat => PieceSize(r, 1) + PieceSize(r, 2) + 1
    case KChat => PieceSize(r, 1) + 1
    case KData =>
      PieceSize(r, 1) + PieceSize(r, 2) + PieceSize(r, 3) + PieceSize(r, 4)
      + PieceSize(r, 10) + PieceSize(r, 11) + PieceSize(r, 12) + PieceSize(r, 13) + 1
  }

  /** Writing out of id order does not change the length. */
  lemma LengthIsById(r: Record)
    ensures |Bytes(r)| == LengthById(r)
  {
    hide PieceSize, SizeOfAll, Bytes;
    RecordLength(r);
    match KindOf(r)
    case KResp =>
      SizeOfTwo(r, 1, 2);
      SizeOfTwo(r, 3, 3);
      SizeAppend(r, [1, 2], [3]);
      assert [1, 2] + [3] == [1, 2, 3];
    case KUser => SizeOfFour(r, 1, 4, 2, 3);
    case KLesson =>
      SizeOfFour(r, 1, 6, 2, 3);
      SizeOfTwo(r, 4, 5);
      SizeAppend(r, [1, 6, 2, 3], [4, 5]);
      assert [1, 6, 2, 3] + [4, 5] == [1, 6, 2, 3, 4, 5];
    case KQuiz =>
      SizeOfFour(r, 1, 2, 4, 7);
      SizeOfFour(r, 3, 5, 6, 8);
      SizeAppend(r, [1, 2, 4, 7], [3, 5, 6, 8]);
      assert [1, 2, 4, 7] + [3, 5, 6, 8] == [1, 2, 4, 7, 3, 5, 6, 8];
    case KStat => SizeOfTwo(r, 2, 1);
    case KChat => SizeOfTwo(r, 1, 1);
    case KData =>
      SizeOfFour(r, 1, 2, 3, 4);
      SizeOfFour(r, 10, 11, 12, 13);
      SizeAppend(r, [1, 2, 3, 4], [10, 11, 12, 13]);
      assert [1, 2, 3, 4] + [10, 11, 12, 13] == [1, 2, 3, 4, 10, 11, 12, 13];
  }

  // ------------------------------------------------- fields in their writing order

  /** Field number k of the writing order is due, has this id, and there is room for it. */
  ghost predicate Due(r: Record, k: nat, id: int, b0: seq<byte>, b: seq<byte>, start: nat, off: nat) {
    Progress(r, k, b0, b, start, off) && k < |Order(KindOf(r))| && Order(KindOf(r))[k] == id
  }

  lemma DueHasRoom(r: Record, k: nat, id: int, v: Val, b0: seq<byte>, b: seq<byte>, start: nat, off: nat)
    requires Due(r, k, id, b0, b, start, off) && Get(r, id) == Some(v)
    ensures PieceBytes(r, id) == FieldBytes(id, v) && off + |FieldBytes(id, v)| < |b| == |b0|
  {
    hide FieldBytes, PieceBytes, Progress, Get;
    HasRoom(r, k, b0, b, start, off);
    PieceIsField(r, id);
    assert |b| == |b0| by { ProgressLength(r, k, b0, b, start, off); }
  }

  lemma ProgressLength(r: Record, k: nat, b0: seq<byte>, b: seq<byte>, start: nat, off: nat)
    requires Progress(r, k, b0, b, start, off)
    ensures |b| == |b0|
  {
  }

  /** An unset optional field writes nothing. */
  lemma Passed(r: Record, k: nat, id: int, b0: seq<byte>, b: seq<byte>, start: nat, off: nat)
    requires Due(r, k, id, b0, b, start, off) && Get(r, id).None?
    ensures Progress(r, k + 1, b0, b, start, off)
  {
    hide PieceBytes, Progress, Get;
    PieceIsField(r, id);
    HasRoom(r, k, b0, b, start, off);
    NothingWrote(b, off);
    Advanced(r, k, b0, b, b, start, off, off);
  }

  /** A nested struct: its header, then its bytes. */
  lemma NestedWrote(a: seq<byte>, b: seq<byte>, c: seq<byte>, off: nat, mid: nat, next: nat, id: int, rec: Record)
    requires Wrote(a, b, off, mid, [STRUCT] + BigEndian(2, id)) && Wrote(b, c, mid, next, Bytes(rec))
    ensures Wrote(a, c, off, next, FieldBytes(id, VRec(rec)))
  {
    hide Wrote, FieldBytes, Encode, WireOf, Bytes, BigEndian;
    FieldParts(id, VRec(rec));
    WroteBoth(a, b, c, off, mid, next, [STRUCT] + BigEndian(2, id), Bytes(rec));
  }

  lemma NestedRoom(id: int, rec: Record)
    ensures |FieldBytes(id, VRec(rec))| == 3 + |Bytes(rec)|
  {
    hide FieldBytes, Bytes;
    FieldLength(id, VRec(rec));
  }

  /** A list of statistics: its field header, the elements behind the place of the list header,
      and the list header patched in. */
  lemma StatsWrote(a: seq<byte>, b: seq<byte>, c: seq<byte>, d: seq<byte>,
                   off: nat, begin: nat, mid: nat, next: nat, id: int, stats: Stats)
    requires Wrote(a, b, off, begin, [LIST] + BigEndian(2, id))
    requires Wrote(b, c, mid, next, EncodeItems(StatWires(stats)))
    requires Wrote(c, d, begin, mid, [STRUCT] + SizeBytes(|stats|))
    ensures Wrote(a, d, off, next, FieldBytes(id, VStats(stats)))
  {
    hide Wrote, FieldBytes, Encode, WireOf, EncodeItems, StatWires, BigEndian;
    FieldParts(id, VStats(stats));
    BackPatched(b, c, d, begin, mid, next, [STRUCT] + SizeBytes(|stats|), EncodeItems(StatWires(stats)));
    WroteBoth(a, b, d, off, begin, next, [LIST] + BigEndian(2, id), Encode(WireOf(VStats(stats))));
  }

  lemma NestedDue(r: Record, k: nat, id: int, rec: Record, b0: seq<byte>, b: seq<byte>, start: nat, off: nat)
    requires Due(r, k, id, b0, b, start, off) && Get(r, id) == Some(VRec(rec))
    ensures off + 3 + |Bytes(rec)| < |b| == |b0|
  {
    hide Due, Bytes, FieldBytes, PieceBytes, Get;
    DueHasRoom(r, k, id, VRec(rec), b0, b, start, off);
    NestedRoom(id, rec);
  }

  lemma NestedDone(r: Record, k: nat, id: int, rec: Record, b0: seq<byte>, b: seq<byte>, c: seq<byte>, d: seq<byte>,
                   start: nat, off: nat, mid: nat, next: nat)
    requires Due(r, k, id, b0, b, start, off) && Get(r, id) == Some(VRec(rec))
    requires Wrote(b, c, off, mid, [STRUCT] + BigEndian(2, id)) && Wrote(c, d, mid, next, Bytes(rec))
    ensures Progress(r, k + 1, b0, d, start, next)
  {
    hide Wrote, Bytes, FieldBytes, PieceBytes, Get, Progress, BigEndian;
    PieceIsField(r, id);
    NestedWrote(b, c, d, off, mid, next, id, rec);
    Advanced(r, k, b0, b, d, start, off, next);
  }

  method EmitI64(buf: array<byte>, off: nat, id: int, x: i64, ghost r: Record, ghost k: nat, ghost b0: seq<byte>, ghost start: nat)
    returns (next: nat)
    requires Due(r, k, id, b0, buf[..], start, off) && Get(r, id) == Some(V64(x))
    modifies buf
    ensures Progress(r, k + 1, b0, buf[..], start, next)
  {
    hide Progress, PieceBytes, FieldBytes;
    ghost var b := buf[..];
    DueHasRoom(r, k, id, V64(x), b0, b, start, off);
    next := WriteI64Field(buf, off, id, x);
    Advanced(r, k, b0, b, buf[..], start, off, next);
  }

  method EmitI16(buf: array<byte>, off: nat, id: int, x: i16, ghost r: Record, ghost k: nat, ghost b0: seq<byte>, ghost start: nat)
    returns (next: nat)
    requires Due(r, k, id, b0, buf[..], start, off) && Get(r, id) == Some(V16(x))
    modifies buf
    ensures Progress(r, k + 1, b0, buf[..], start, next)
  {
    hide Progress, PieceBytes, FieldBytes;
    ghost var b := buf[..];
    DueHasRoom(r, k, id, V16(x), b0, b, start, off);
    next := WriteI16Field(buf, off, id, x);
    Advanced(r, k, b0, b, buf[..], start, off, next);
  }

  method EmitByte(buf: array<byte>, off: nat, id: int, x: i8, ghost r: Record, ghost k: nat, ghost b0: seq<byte>, ghost start: nat)
    returns (next: nat)
    requires Due(r, k, id, b0, buf[..], start, off) && Get(r, id) == Some(VByte(x))
    modifies buf
    ensures Progress(r, k + 1, b0, buf[..], start, next)
  {
    hide Progress, PieceBytes, FieldBytes;
    ghost var b := buf[..];
    DueHasRoom(r, k, id, VByte(x), b0, b, start, off);
    next := WriteByteField(buf, off, id, x);
    Advanced(r, k, b0, b, buf[..], start, off, next);
  }

  method EmitString(buf: array<byte>, off: nat, id: int, s: Str, ghost r: Record, ghost k: nat, ghost b0: seq<byte>, ghost start: nat)
    returns (next: nat)
    requires Due(r, k, id, b0, buf[..], start, off) && Get(r, id) == Some(VStr(s))
    modifies buf
    ensures Progress(r, k + 1, b0, buf[..], start, next)
  {
    hide Progress, PieceBytes, FieldBytes;
    ghost var b := buf[..];
    DueHasRoom(r, k, id, VStr(s), b0, b, start, off);
    next := WriteStringField(buf, off, id, s);
    Advanced(r, k, b0, b, buf[..], start, off, next);
  }

  method EmitIds(buf: array<byte>, off: nat, id: int, ids: Ids, ghost r: Record, ghost k: nat, ghost b0: seq<byte>, ghost start: nat)
    returns (next: nat)
    requires Due(r, k, id, b0, buf[..], start, off) && Get(r, id) == Some(VIds(ids))
    modifies buf
    ensures Progress(r, k + 1, b0, buf[..], start, next)
  {
    hide Progress, PieceBytes, FieldBytes;
    ghost var b := buf[..];
    DueHasRoom(r, k, id, VIds(ids), b0, b, start, off);
    next := WriteIdsField(buf, off, id, ids);
    Advanced(r, k, b0, b, buf[..], start, off, next);
  }

  method EmitStop(buf: array<byte>, off: nat, ghost r: Record, ghost b0: seq<byte>, ghost start: nat) returns (next: nat)
    requires Progress(r, |Order(KindOf(r))|, b0, buf[..], start, off)
    modifies buf
    ensures Wrote(b0, buf[..], start, next, Bytes(r))
  {
    hide Bytes, Wrote;
    ghost var b := buf[..];
    HasRoom(r, |Order(KindOf(r))|, b0, b, start, off);
    next := WriteFieldStop(buf, off);
    Finished(r, b0, b, buf[..], start, off, next);
  }
}
