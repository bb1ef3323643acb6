/** Lists whose elements are not of the declared type. The reader drops the element type of a
    list, so such a list is not skipped like a foreign field but read as if it were declared;
    these are the exact conditions under which that goes well. */
module CommonLists {
  import opened Wrappers
  import opened ThriftBinary
  import opened ThriftParsing
  import opened CommonRecords
  import opened CommonReader
  import opened CommonCompatibility

  // ------------------------------------------------------------------ lists of ids

  lemma {:induction false} IdsReadIff(n: nat, buf: seq<byte>, off: nat)
    requires off <= |buf|
    ensures ReadIds(n, buf, off).Some? <==> off + 8 * n <= |buf|
    ensures ReadIds(n, buf, off).Some? ==> ReadIds(n, buf, off).value.1 == off + 8 * n
  {
    if n > 0 && off + 8 <= |buf| { IdsReadIff(n - 1, buf, off + 8); }
  }

  /** A well-formed list of any element type is read as ids if and only if eight bytes for
      each element are left in the buffer, and the read ends where the list ends if and only
      if its elements take eight bytes each on average. */
  lemma IdListReadIff(w: Wire, buf: seq<byte>, off: nat)
    requires w.Coll? && w.kind == LIST && WellFormed(w) && At(buf, off, Encode(w))
    ensures ReadVal(IdsS, buf, off).Some? <==> off + 5 + 8 * |w.items| <= |buf|
    ensures (ReadVal(IdsS, buf, off).Some? && ReadVal(IdsS, buf, off).value.next == off + |Encode(w)|)
            <==> |EncodeItems(w.items)| == 8 * |w.items|
  {
    ListBeginAt(w.elem, |w.items|, EncodeItems(w.items), buf, off);
    hide ItemsWellFormed, ReadListBegin, ReadIds, EncodeItems;
    IdsReadIff(|w.items|, buf, off + 5);
  }

  // ----------------------------------------------------------- lists of statistics

  /** The fields of a statistic are an integer and a string: reading one ends where skipping
      it would. */
  lemma PlainEndsAsSkipped(s: Shape, buf: seq<byte>, off: nat)
    requires s == StrS || s == I64S
    ensures Skip(buf, off, TypeOfShape(s)) == if ReadVal(s, buf, off).Some? then Some(ReadVal(s, buf, off).value.next) else None
  {
  }

  lemma FieldEndsAsSkipped(r: Record, ty: byte, id: int, buf: seq<byte>, off: nat)
    requires KindOf(r) == KStat
    ensures ReadField(r, ty, id, buf, off).1 == Skip(buf, off, ty)
  {
    if Schema(KStat, id).Some? { PlainEndsAsSkipped(Schema(KStat, id).value, buf, off); }
    hide Skip, ReadVal, Set;
  }

  lemma {:induction false} StatEndsAsSkipped(r: Record, buf: seq<byte>, off: nat)
    requires KindOf(r) == KStat
    ensures ReadRecord(r, buf, off).1 == SkipFields(buf, off)
    decreases |buf| - off
  {
    hide ReadField, Skip, ReadFieldBegin;
    var h := ReadFieldBegin(buf, off);
    if h.Some? && h.value.ty != STOP {
      FieldEndsAsSkipped(r, h.value.ty, h.value.id, buf, h.value.next);
      var (t, o) := ReadField(r, h.value.ty, h.value.id, buf, h.value.next);
      if o.Some? { StatEndsAsSkipped(t, buf, o.value); }
    }
  }

  lemma {:induction false} StatsEndAsSkipped(n: nat, buf: seq<byte>, off: nat)
    requires off <= |buf|
    ensures SkipItems(buf, off, STRUCT, STRUCT, n) ==
            if ReadStats(n, buf, off).Some? then Some(ReadStats(n, buf, off).value.1) else None
    decreases n
  {
    if n > 0 {
      StatEndsAsSkipped(Empty(KStat), buf, off);
      StructSkipped(buf, off);
      var o := SkipFields(buf, off);
      hide ReadRecord, Skip, SkipFields;
      if o.Some? { StatsEndAsSkipped(n - 1, buf, o.value); }
    }
  }

  lemma StructSkipped(buf: seq<byte>, off: nat)
    ensures Skip(buf, off, STRUCT) == SkipFields(buf, off)
  {
  }

  /** n well-formed structs stand at the offset and end at `end`. */
  ghost predicate StructsThere(n: nat, buf: seq<byte>, off: nat, end: nat) {
    exists ws :: |ws| == n && ItemsSpan(ws, STRUCT, STRUCT, buf, off, end)
  }

  ghost predicate StartsWithStructs(n: nat, buf: seq<byte>, off: nat) {
    exists end :: StructsThere(n, buf, off, end)
  }

  lemma StatsReadIff(n: nat, buf: seq<byte>, off: nat, end: nat)
    requires off <= |buf|
    ensures (ReadStats(n, buf, off).Some? && ReadStats(n, buf, off).value.1 == end) <==> StructsThere(n, buf, off, end)
  {
    hide ReadStats, SkipItems, ItemsSpan;
    StatsEndAsSkipped(n, buf, off);
    if SkipItems(buf, off, STRUCT, STRUCT, n) == Some(end) {
      var ws := SkippedIsItems(buf, off, STRUCT, STRUCT, n);
      assert |ws| == n && ItemsSpan(ws, STRUCT, STRUCT, buf, off, end);
    }
    if ws :| |ws| == n && ItemsSpan(ws, STRUCT, STRUCT, buf, off, end) {
      StructsSkipped(ws, buf, off, end);
    }
  }

  lemma StatsStartIff(n: nat, buf: seq<byte>, off: nat)
    requires off <= |buf|
    ensures ReadStats(n, buf, off).Some? <==> StartsWithStructs(n, buf, off)
  {
    hide StructsThere, ReadStats;
    var got := ReadStats(n, buf, off);
    if got.Some? { StatsReadIff(n, buf, off, got.value.1); }
    if end :| StructsThere(n, buf, off, end) { StatsReadIff(n, buf, off, end); }
  }

  lemma StructsSkipped(ws: seq<Wire>, buf: seq<byte>, off: nat, end: nat)
    requires off <= |buf| && ItemsSpan(ws, STRUCT, STRUCT, buf, off, end)
    ensures SkipItems(buf, off, STRUCT, STRUCT, |ws|) == Some(end)
  {
    hide SkipItems, EncodeItems, ItemsWellFormed;
    SkipsItems(ws, STRUCT, STRUCT, buf, off);
  }

  /** A well-formed list of any element type is read as statistics if and only if as many
      well-formed structs can be made out of the bytes behind its header, and the read ends
      where the list ends if and only if they can be made out of exactly its elements' bytes.
      A list of structs always meets that. */
  lemma StatListReadIff(w: Wire, buf: seq<byte>, off: nat)
    requires w.Coll? && w.kind == LIST && WellFormed(w) && At(buf, off, Encode(w))
    ensures ReadVal(StatsS, buf, off).Some? <==> StartsWithStructs(|w.items|, buf, off + 5)
    ensures (ReadVal(StatsS, buf, off).Some? && ReadVal(StatsS, buf, off).value.next == off + |Encode(w)|)
            <==> StructsThere(|w.items|, buf, off + 5, off + |Encode(w)|)
    ensures w.elem == STRUCT ==> StructsThere(|w.items|, buf, off + 5, off + |Encode(w)|)
  {
    var n, end := |w.items|, off + |Encode(w)|;
    ListBeginAt(w.elem, n, EncodeItems(w.items), buf, off);
    if w.elem == STRUCT { assert ItemsSpan(w.items, STRUCT, STRUCT, buf, off + 5, end); }
    hide StructsThere, StartsWithStructs, ReadListBegin, ReadStats, EncodeItems, ItemsWellFormed;
    StatsReadIff(n, buf, off + 5, end);
    StatsStartIff(n, buf, off + 5);
  }

  // -------------------------------------------------------------------- a witness

  /** The reader does not look at a list's element type: a well-formed list of two one-byte
      elements is taken for two 64-bit ids, and reading the record fails. */
  lemma ElementTypeIgnored()
    ensures var ones := [Fixed(BYTE, [1]), Fixed(BYTE, [1])];
            var f := Field(5, Coll(LIST, BYTE, ones));
            && FieldsWellFormed([f]) && !Foreign(KLesson, f)
            && ReadRecord(Empty(KLesson), EncodeFields([f]) + [STOP], 0).1.None?
  {
    hide Encode, EncodeFields, EncodeField, EncodeItems, WellFormed, FieldsWellFormed, FieldWellFormed, ReadRecord;
    var one := Fixed(BYTE, [1]);
    var f := Field(5, Coll(LIST, BYTE, [one, one]));
    TwoOnes(one, f.wire);
    OnesField(f);
    var buf := EncodeFields([f]) + [STOP];
    OneFieldFits(KLesson, f);
    assert At(buf, 0, buf);
    AtSplit(buf, 0, EncodeField(f), [STOP]);
    FieldBeginAt(f, buf, 0);
    ListBeginAt(BYTE, 2, [1, 1], buf, 3);
    RunsPastTheEnd(buf);
  }

  lemma OnesField(f: Field)
    requires -0x8000 <= f.id < 0x8000 && WellFormed(f.wire) && |Encode(f.wire)| == 7
    ensures FieldWellFormed(f) && FieldsWellFormed([f]) && |EncodeField(f)| == 10
  {
    hide WellFormed, Encode;
    assert FieldsWellFormed([]);
    assert FieldWellFormed(f);
    assert [f][1..] == [];
    assert FieldsWellFormed([f]);
  }

  lemma RunsPastTheEnd(buf: seq<byte>)
    requires |buf| == 11 && ReadFieldBegin(buf, 0) == Some(Header(LIST, 5, 3))
    requires ReadListBegin(buf, 3) == Some(ListHeader(BYTE, 2, 8))
    ensures ReadRecord(Empty(KLesson), buf, 0).1.None?
  {
    assert ReadIds(2, buf, 8).None?;
    assert ReadVal(IdsS, buf, 3).None?;
    hide ReadIds, ReadFieldBegin, ReadListBegin, ReadVal, Skip;
  }

  lemma TwoOnes(one: Wire, w: Wire)
    requires one == Fixed(BYTE, [1]) && w == Coll(LIST, BYTE, [one, one])
    ensures WellFormed(w) && Encode(w) == [BYTE] + SizeBytes(2) + [1, 1]
  {
    assert [one, one][1..] == [one] && [one][1..] == [];
    assert WellFormed(one) && Encode(one) == [1];
    assert ItemsWellFormed([], BYTE, BYTE) && EncodeItems([]) == [];
    assert ItemsWellFormed([one], BYTE, BYTE) && EncodeItems([one]) == [1];
    assert ItemsWellFormed([one, one], BYTE, BYTE) && EncodeItems([one, one]) == [1, 1];
  }
}
