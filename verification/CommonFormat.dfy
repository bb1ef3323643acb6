/** The bytes the writer produces for a record (the FastWrite methods of
    idl/kitex_gen/common/k-common.go), and the laws between writer and reader. */
module CommonFormat {
  import opened Wrappers
  import opened ThriftBinary
  import opened CommonRecords
  import opened CommonReader

  // ------------------------------------------------------------ what is written

  function IdWires(ids: seq<i64>): (ws: seq<Wire>)
    ensures |ws| == |ids|
  {
    if ids == [] then [] else [Fixed(I64, BigEndian(8, ids[0]))] + IdWires(ids[1..])
  }

  function StatWires(stats: seq<QuizStat>): (ws: seq<Wire>)
    ensures |ws| == |stats|
    decreases 0, 4, |stats|
  {
    if stats == [] then [] else [Struct(FieldsOf(RStat(stats[0])))] + StatWires(stats[1..])
  }

  function WireOf(v: Val): (w: Wire)
    decreases DepthOfShape(ShapeOf(v)), 0, 0
  {
    match v
    case VByte(b) => Fixed(BYTE, BigEndian(1, b))
    case V16(h) => Fixed(I16, BigEndian(2, h))
    case V64(n) => Fixed(I64, BigEndian(8, n))
    case VStr(s) => Text(s)
    case VIds(ids) => Coll(LIST, I64, IdWires(ids))
    case VStats(stats) => Coll(LIST, STRUCT, StatWires(stats))
    case VRec(r) => Struct(FieldsOf(r))
  }

  /** The field as written: nothing for an optional field that is not set. */
  function Written(r: Record, id: int): (fs: seq<Field>)
    decreases Depth(KindOf(r)), 1, 0
  {
    GetIsDeclared(r, id);
    var v := Get(r, id);
    if v.None? then [] else [Field(id, WireOf(v.value))]
  }

  function WrittenAll(r: Record, ids: seq<int>): seq<Field>
    decreases Depth(KindOf(r)), 2, |ids|
  {
    if ids == [] then [] else WrittenAll(r, ids[..|ids| - 1]) + Written(r, ids[|ids| - 1])
  }

  function FieldsOf(r: Record): seq<Field>
    decreases Depth(KindOf(r)), 3, 0
  {
    WrittenAll(r, Order(KindOf(r)))
  }

  function Bytes(r: Record): seq<byte> {
    EncodeFields(FieldsOf(r)) + [STOP]
  }

  // ---------------------------------------------------- laws of field sequences

  lemma {:induction false} FitsAppend(k: Kind, a: seq<Field>, b: seq<Field>)
    ensures FieldsFit(k, a + b) <==> FieldsFit(k, a) && FieldsFit(k, b)
  {
    if a == [] {
      assert a + b == b;
    } else {
      assert (a + b)[1..] == a[1..] + b;
      FitsAppend(k, a[1..], b);
    }
  }

  lemma {:induction false} ApplyAppend(r: Record, a: seq<Field>, b: seq<Field>)
    requires FieldsFit(KindOf(r), a) && FieldsFit(KindOf(r), b)
    ensures FieldsFit(KindOf(r), a + b) && ApplyAll(r, a + b) == ApplyAll(ApplyAll(r, a), b)
    decreases a
  {
    FitsAppend(KindOf(r), a, b);
    if a == [] {
      assert a + b == b;
    } else {
      assert (a + b)[1..] == a[1..] + b;
      ApplyAppend(Apply(r, a[0]), a[1..], b);
    }
  }

  lemma {:induction false} EncodeAppend(a: seq<Field>, b: seq<Field>)
    ensures EncodeFields(a + b) == EncodeFields(a) + EncodeFields(b)
  {
    if a == [] {
      assert a + b == b;
    } else {
      assert (a + b)[1..] == a[1..] + b;
      EncodeAppend(a[1..], b);
    }
  }

  lemma {:induction false} FitIsWellFormed(k: Kind, fs: seq<Field>)
    requires FieldsFit(k, fs)
    ensures FieldsWellFormed(fs)
  {
    if fs != [] { FitIsWellFormed(k, fs[1..]); }
  }

  // -------------------------------------------------------------- the round trip

  lemma IntMeaning(n: nat, ty: byte, x: int)
    requires n > 0 && Width(ty) == n && -Half(n) <= x < Half(n)
    ensures WellFormed(Fixed(ty, BigEndian(n, x))) && RawInt(Fixed(ty, BigEndian(n, x))) == x
  {
    SignedOfBigEndian(n, x);
  }

  lemma {:induction false} IdsRoundTrip(ids: seq<i64>)
    ensures ItemsWellFormed(IdWires(ids), I64, I64) && IdItems(IdWires(ids)) == ids
  {
    if ids != [] {
      Widths();
      IntMeaning(8, I64, ids[0]);
      IdsRoundTrip(ids[1..]);
    }
  }

  lemma {:induction false} StatsRoundTrip(stats: seq<QuizStat>)
    ensures ItemsWellFormed(StatWires(stats), STRUCT, STRUCT)
    ensures ItemsFit(StatWires(stats)) && StatItems(StatWires(stats)) == stats
    decreases 0, 4, |stats|
  {
    if stats != [] {
      StructRoundTrip(RStat(stats[0]));
      StatsRoundTrip(stats[1..]);
    }
    hide FieldsOf;
  }

  lemma StructRoundTrip(r: Record)
    ensures Fits(RecS(KindOf(r)), Struct(FieldsOf(r)))
    ensures Meaning(RecS(KindOf(r)), Struct(FieldsOf(r))) == VRec(r)
    decreases Depth(KindOf(r)), 3, 1
  {
    hide FieldsOf, ApplyAll, FieldsFit, FieldsWellFormed, Empty, KindOf;
    RecordRoundTrip(r);
    FitIsWellFormed(KindOf(r), FieldsOf(r));
  }

  lemma {:induction false} ValRoundTrip(v: Val)
    ensures Fits(ShapeOf(v), WireOf(v)) && Meaning(ShapeOf(v), WireOf(v)) == v
    decreases DepthOfShape(ShapeOf(v)), 0, 0
  {
    match v
    case VByte(_) => PlainRoundTrip(v);
    case V16(_) => PlainRoundTrip(v);
    case V64(_) => PlainRoundTrip(v);
    case VStr(_) => PlainRoundTrip(v);
    case VIds(_) => PlainRoundTrip(v);
    case VStats(stats) =>
      StatsRoundTrip(stats);
      hide StatWires, StatItems, ItemsFit;
    case VRec(r) => StructRoundTrip(r);
  }

  lemma PlainRoundTrip(v: Val)
    requires !v.VStats? && !v.VRec?
    ensures Fits(ShapeOf(v), WireOf(v)) && Meaning(ShapeOf(v), WireOf(v)) == v
  {
    Widths();
    match v
    case VByte(b) => IntMeaning(1, BYTE, b);
    case V16(h) => IntMeaning(2, I16, h);
    case V64(n) => IntMeaning(8, I64, n);
    case VStr(s) =>
    case VIds(ids) => IdsRoundTrip(ids);
  }

  /** Everything written from the empty record on: the fields of these ids are the record's. */
  ghost predicate Restored(r: Record, ids: seq<int>, t: Record) {
    && KindOf(t) == KindOf(r)
    && forall j :: Get(t, j) == if j in ids && Get(r, j).Some? then Get(r, j) else Get(Empty(KindOf(r)), j)
  }

  lemma {:induction false} FieldsRestore(r: Record, ids: seq<int>)
    requires forall i :: 0 <= i < |ids| ==> Schema(KindOf(r), ids[i]).Some? && 1 <= ids[i] <= 13
    ensures FieldsFit(KindOf(r), WrittenAll(r, ids))
    ensures Restored(r, ids, ApplyAll(Empty(KindOf(r)), WrittenAll(r, ids)))
    decreases Depth(KindOf(r)), 2, |ids|
  {
    hide Get, Schema, Written, Empty;
    if ids == [] {
      EmptyKind(KindOf(r));
      NothingApplied(Empty(KindOf(r)));
    } else {
      var front, id := ids[..|ids| - 1], ids[|ids| - 1];
      FieldsRestore(r, front);
      EmptyKind(KindOf(r));
      var t := ApplyAll(Empty(KindOf(r)), WrittenAll(r, front));
      OneRestored(r, id, t);
      ApplyAppend(Empty(KindOf(r)), WrittenAll(r, front), Written(r, id));
      hide FieldsFit, ApplyAll, Restored;
      RestoredOneMore(r, ids, t, ApplyAll(t, Written(r, id)));
    }
  }

  lemma RestoredOneMore(r: Record, ids: seq<int>, t: Record, u: Record)
    requires ids != [] && Restored(r, ids[..|ids| - 1], t) && KindOf(u) == KindOf(r)
    requires var id := ids[|ids| - 1];
             forall j :: Get(u, j) == if j == id && Get(r, id).Some? then Get(r, id) else Get(t, j)
    ensures Restored(r, ids, u)
  {
    hide Get, Empty;
    var front, id := ids[..|ids| - 1], ids[|ids| - 1];
    assert ids == front + [id];
  }

  lemma EmptyKind(k: Kind)
    ensures KindOf(Empty(k)) == k
  {
  }

  lemma NothingApplied(t: Record)
    ensures FieldsFit(KindOf(t), []) && ApplyAll(t, []) == t
  {
  }

  lemma FieldApplied(t: Record, f: Field)
    requires FieldFits(KindOf(t), f)
    ensures FieldsFit(KindOf(t), [f]) && ApplyAll(t, [f]) == Apply(t, f)
  {
    hide FieldFits, Apply;
    NothingApplied(t);
    assert [f][1..] == [];
    assert FieldsFit(KindOf(t), [f]);
    NothingApplied(Apply(t, f));
    assert ApplyAll(t, [f]) == ApplyAll(Apply(t, f), []);
  }

  lemma ValueApplied(t: Record, id: int, v: Val)
    requires Schema(KindOf(t), id) == Some(ShapeOf(v)) && 1 <= id <= 13
    requires Fits(ShapeOf(v), WireOf(v)) && Meaning(ShapeOf(v), WireOf(v)) == v
    ensures FieldsFit(KindOf(t), [Field(id, WireOf(v))]) && ApplyAll(t, [Field(id, WireOf(v))]) == Set(t, id, v)
  {
    var f := Field(id, WireOf(v));
    FitsIsWellFormed(ShapeOf(v), f.wire);
    hide Fits, Meaning, WireOf, Schema, Set, WellFormed;
    FieldApplied(t, f);
  }

  lemma FitsIsWellFormed(s: Shape, w: Wire)
    requires Fits(s, w)
    ensures WellFormed(w) && TypeOf(w) == TypeOfShape(s)
  {
  }

  lemma OneRestored(r: Record, id: int, t: Record)
    requires KindOf(t) == KindOf(r) && 1 <= id <= 13
    ensures FieldsFit(KindOf(r), Written(r, id))
    ensures var u := ApplyAll(t, Written(r, id));
            KindOf(u) == KindOf(r) && forall j :: Get(u, j) == if j == id && Get(r, id).Some? then Get(r, id) else Get(t, j)
    decreases Depth(KindOf(r)), 1, 0
  {
    hide FieldsFit, ApplyAll, WireOf, Fits, Meaning, Get, Set, Schema;
    GetIsDeclared(r, id);
    NothingApplied(t);
    if Get(r, id).Some? {
      var v := Get(r, id).value;
      ValRoundTrip(v);
      ValueApplied(t, id, v);
      forall j ensures Get(Set(t, id, v), j) == if j == id then Some(v) else Get(t, j) {
        GetAfterSet(t, id, v, j);
      }
    }
  }

  lemma RecordRoundTrip(r: Record)
    ensures FieldsFit(KindOf(r), FieldsOf(r))
    ensures ApplyAll(Empty(KindOf(r)), FieldsOf(r)) == r
    decreases Depth(KindOf(r)), 3, 0
  {
    var k := KindOf(r);
    forall i | 0 <= i < |Order(k)| ensures Schema(k, Order(k)[i]).Some? && 1 <= Order(k)[i] <= 13 {
      OrderIsSchema(k, Order(k)[i]);
    }
    FieldsRestore(r, Order(k));
    var t := ApplyAll(Empty(k), FieldsOf(r));
    forall j ensures Get(t, j) == Get(r, j) {
      OrderIsSchema(k, j);
      GetIsDeclared(r, j);
    }
    FieldsDetermine(t, r);
  }

  /** MAIN RESULT: reading what was written, wherever it stands in a buffer and whatever
      follows, gives the record back and consumes exactly the bytes written. */
  lemma RoundTrip(r: Record, buf: seq<byte>, off: nat)
    requires At(buf, off, Bytes(r))
    ensures ReadRecord(Empty(KindOf(r)), buf, off) == (r, Some(off + |Bytes(r)|))
  {
    hide FieldsOf, ApplyAll, FieldsFit, EncodeFields, ReadRecord, Empty, KindOf;
    RecordRoundTrip(r);
    ReadsRecord(Empty(KindOf(r)), FieldsOf(r), buf, off);
  }
}
