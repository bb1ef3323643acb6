/** Reading a record (the FastRead methods of idl/kitex_gen/common/k-common.go) as a function
    of the bytes, and what it does on any well-formed struct: fields in any order, repeated,
    missing, unknown, or carrying another type than the declared one. */
module CommonReader {
  import opened Wrappers
  import opened ThriftBinary
  import opened CommonRecords

  datatype Got = Got(val: Val, next: nat)

  function ReadIds(n: nat, buf: seq<byte>, off: nat): (r: Option<(seq<i64>, nat)>)
    requires off <= |buf|
    ensures r.Some? ==> off <= r.value.1 <= |buf| && |r.value.0| == n
    decreases n
  {
    if n == 0 then Some(([], off)) else
    var x := ReadInt(8, buf, off);
    if x.None? then None else
    Widths();
    var rest := ReadIds(n - 1, buf, off + 8);
    if rest.None? then None else Some(([x.value] + rest.value.0, rest.value.1))
  }

  /** The value of a field of the declared type. The element type of a list is not looked at. */
  function ReadVal(s: Shape, buf: seq<byte>, off: nat): (r: Option<Got>)
    ensures r.Some? ==> ShapeOf(r.value.val) == s && off < r.value.next <= |buf|
    decreases |buf| - off, 1
  {
    Widths();
    match s
    case ByteS => var x := ReadInt(1, buf, off); if x.None? then None else Some(Got(VByte(x.value), off + 1))
    case I16S => var x := ReadInt(2, buf, off); if x.None? then None else Some(Got(V16(x.value), off + 2))
    case I64S => var x := ReadInt(8, buf, off); if x.None? then None else Some(Got(V64(x.value), off + 8))
    case StrS => var x := ReadString(buf, off); if x.None? then None else Some(Got(VStr(x.value.0), x.value.1))
    case IdsS =>
      var h := ReadListBegin(buf, off);
      if h.None? then None else
      var x := ReadIds(h.value.size, buf, h.value.next);
      if x.None? then None else Some(Got(VIds(x.value.0), x.value.1))
    case StatsS =>
      var h := ReadListBegin(buf, off);
      if h.None? then None else
      var x := ReadStats(h.value.size, buf, h.value.next);
      if x.None? then None else Some(Got(VStats(x.value.0), x.value.1))
    case RecS(k) =>
      var (x, o) := ReadRecord(Empty(k), buf, off);
      if o.None? then None else Some(Got(VRec(x), o.value))
  }

  function ReadStats(n: nat, buf: seq<byte>, off: nat): (r: Option<(seq<QuizStat>, nat)>)
    requires off <= |buf|
    ensures r.Some? ==> off <= r.value.1 <= |buf| && |r.value.0| == n
    decreases |buf| - off, 2
  {
    if n == 0 then Some(([], off)) else
    var (x, o) := ReadRecord(Empty(KStat), buf, off);
    if o.None? then None else
    var rest := ReadStats(n - 1, buf, o.value);
    if rest.None? then None else Some(([x.stat] + rest.value.0, rest.value.1))
  }

  /** One field after its header: assigned when it has the declared type, else skipped. */
  function ReadField(r: Record, ty: byte, id: int, buf: seq<byte>, off: nat): (t: (Record, Option<nat>))
    ensures KindOf(t.0) == KindOf(r)
    ensures t.1.Some? ==> off < t.1.value <= |buf|
    decreases |buf| - off, 2
  {
    var s := Schema(KindOf(r), id);
    if s.Some? && TypeOfShape(s.value) == ty then
      var g := ReadVal(s.value, buf, off);
      if g.None? then (r, None) else
      SetKeepsKind(r, id, g.value.val);
      (Set(r, id, g.value.val), Some(g.value.next))
    else (r, Skip(buf, off, ty))
  }

  /** Fields until STOP, assigned into the record: the record afterwards and the offset after
      STOP, or no offset on an error. */
  function ReadRecord(r: Record, buf: seq<byte>, off: nat): (t: (Record, Option<nat>))
    ensures KindOf(t.0) == KindOf(r)
    ensures t.1.Some? ==> off < t.1.value <= |buf|
    decreases |buf| - off, 0
  {
    var h := ReadFieldBegin(buf, off);
    if h.None? then (r, None)
    else if h.value.ty == STOP then (r, Some(h.value.next))
    else
      var (t, o) := ReadField(r, h.value.ty, h.value.id, buf, h.value.next);
      if o.None? then (t, None) else ReadRecord(t, buf, o.value)
  }

  // -------------------------------------------------------- one field, imperatively

  method ReadI64(buf: seq<byte>, off: nat) returns (x: i64, end: Option<nat>)
    ensures ReadVal(I64S, buf, off) == if end.None? then None else Some(Got(V64(x), end.value))
  {
    Widths();
    var r := ReadInt(8, buf, off);
    if r.None? { return 0, None; }
    return r.value, Some(off + 8);
  }

  method ReadI16(buf: seq<byte>, off: nat) returns (x: i16, end: Option<nat>)
    ensures ReadVal(I16S, buf, off) == if end.None? then None else Some(Got(V16(x), end.value))
  {
    Widths();
    var r := ReadInt(2, buf, off);
    if r.None? { return 0, None; }
    return r.value, Some(off + 2);
  }

  method ReadByte(buf: seq<byte>, off: nat) returns (x: i8, end: Option<nat>)
    ensures ReadVal(ByteS, buf, off) == if end.None? then None else Some(Got(VByte(x), end.value))
  {
    Widths();
    var r := ReadInt(1, buf, off);
    if r.None? { return 0, None; }
    return r.value, Some(off + 1);
  }

  method ReadStr(buf: seq<byte>, off: nat) returns (x: Str, end: Option<nat>)
    ensures ReadVal(StrS, buf, off) == if end.None? then None else Some(Got(VStr(x), end.value))
  {
    var r := ReadString(buf, off);
    if r.None? { return [], None; }
    return r.value.0, Some(r.value.1);
  }

  lemma NoList(buf: seq<byte>, off: nat)
    requires ReadListBegin(buf, off).None?
    ensures ReadVal(IdsS, buf, off).None? && ReadVal(StatsS, buf, off).None?
  {
    hide ReadListBegin;
  }

  lemma IdsVal(buf: seq<byte>, off: nat, got: Option<(seq<i64>, nat)>)
    requires ReadListBegin(buf, off).Some?
    requires var h := ReadListBegin(buf, off).value; got == ReadIds(h.size, buf, h.next)
    ensures ReadVal(IdsS, buf, off) == if got.None? then None else Some(Got(VIds(got.value.0), got.value.1))
  {
    hide ReadListBegin, ReadIds;
  }

  lemma StatsVal(buf: seq<byte>, off: nat, got: Option<(seq<QuizStat>, nat)>)
    requires ReadListBegin(buf, off).Some?
    requires var h := ReadListBegin(buf, off).value; got == ReadStats(h.size, buf, h.next)
    ensures ReadVal(StatsS, buf, off) == if got.None? then None else Some(Got(VStats(got.value.0), got.value.1))
  {
    hide ReadListBegin, ReadStats;
  }

  /** A field of the declared type is assigned what was read, or fails with it. */
  lemma Assigned(r: Record, ty: byte, id: int, buf: seq<byte>, off: nat, v: Val, end: Option<nat>)
    requires Schema(KindOf(r), id) == Some(ShapeOf(v)) && TypeOfShape(ShapeOf(v)) == ty
    requires ReadVal(ShapeOf(v), buf, off) == if end.None? then None else Some(Got(v, end.value))
    ensures ReadField(r, ty, id, buf, off) == if end.None? then (r, None) else (Set(r, id, v), end)
  {
    hide ReadVal, Set;
  }

  lemma NestedVal(k: Kind, rec: Record, end: Option<nat>, buf: seq<byte>, off: nat)
    requires ReadRecord(Empty(k), buf, off) == (rec, end)
    ensures ReadVal(RecS(k), buf, off) == if end.None? then None else Some(Got(VRec(rec), end.value))
  {
    hide ReadRecord;
  }

  lemma Skipped(r: Record, ty: byte, id: int, buf: seq<byte>, off: nat)
    requires Schema(KindOf(r), id).None? || TypeOfShape(Schema(KindOf(r), id).value) != ty
    ensures ReadField(r, ty, id, buf, off) == (r, Skip(buf, off, ty))
  {
    hide Skip;
  }

  // ------------------------------------------------------ what a wire value means

  /** The field is unknown to the record, or does not have the declared type. */
  predicate Foreign(k: Kind, f: Field) {
    Schema(k, f.id).None? || TypeOfShape(Schema(k, f.id).value) != TypeOf(f.wire)
  }

  /** A well-formed value of the declared type; lists have the declared element type. */
  predicate Fits(s: Shape, w: Wire)
    decreases w
  {
    && WellFormed(w)
    && TypeOf(w) == TypeOfShape(s)
    && match s
       case IdsS => w.Coll? && (w.items == [] || w.elem == I64)
       case StatsS => w.Coll? && ItemsFit(w.items)
       case RecS(k) => w.Struct? && FieldsFit(k, w.fields)
       case _ => true
  }

  predicate ItemsFit(ws: seq<Wire>)
    decreases ws
  {
    ws == [] || (Fits(RecS(KStat), ws[0]) && ItemsFit(ws[1..]))
  }

  /** Well-formed fields, those of a declared type fitting it at every depth. */
  predicate FieldsFit(k: Kind, fs: seq<Field>)
    decreases fs
  {
    fs == [] || (FieldFits(k, fs[0]) && FieldsFit(k, fs[1..]))
  }

  predicate FieldFits(k: Kind, f: Field)
    decreases f
  {
    FieldWellFormed(f) && (Foreign(k, f) || Fits(Schema(k, f.id).value, f.wire))
  }

  function RawInt(w: Wire): int
    requires w.Fixed? && w.raw != []
  {
    Signed(w.raw)
  }

  function IdItems(ws: seq<Wire>): (r: seq<i64>)
    requires ItemsWellFormed(ws, I64, I64)
    ensures |r| == |ws|
  {
    if ws == [] then [] else
    Widths();
    assert WellFormed(ws[0]);
    [RawInt(ws[0])] + IdItems(ws[1..])
  }

  function StatItems(ws: seq<Wire>): (r: seq<QuizStat>)
    requires ItemsFit(ws)
    ensures |r| == |ws|
    decreases ws
  {
    if ws == [] then [] else [Meaning(RecS(KStat), ws[0]).rec.stat] + StatItems(ws[1..])
  }

  function Meaning(s: Shape, w: Wire): (v: Val)
    requires Fits(s, w)
    ensures ShapeOf(v) == s
    decreases w
  {
    Widths();
    match s
    case ByteS => VByte(RawInt(w))
    case I16S => V16(RawInt(w))
    case I64S => V64(RawInt(w))
    case StrS => VStr(w.text)
    case IdsS => VIds(if w.items == [] then [] else IdItems(w.items))
    case StatsS => VStats(StatItems(w.items))
    case RecS(k) => VRec(ApplyAll(Empty(k), w.fields))
  }

  function Apply(r: Record, f: Field): (t: Record)
    requires FieldFits(KindOf(r), f)
    ensures KindOf(t) == KindOf(r)
    decreases f
  {
    if Foreign(KindOf(r), f) then r else
    var v := Meaning(Schema(KindOf(r), f.id).value, f.wire);
    SetKeepsKind(r, f.id, v);
    Set(r, f.id, v)
  }

  /** The fields assigned one after the other: the last one of an id wins. */
  function ApplyAll(r: Record, fs: seq<Field>): (t: Record)
    requires FieldsFit(KindOf(r), fs)
    ensures KindOf(t) == KindOf(r)
    decreases fs
  {
    if fs == [] then r else ApplyAll(Apply(r, fs[0]), fs[1..])
  }

  // ------------------------------------------------ reading follows the meaning

  lemma {:induction false} ReadsIds(ws: seq<Wire>, buf: seq<byte>, off: nat)
    requires ItemsWellFormed(ws, I64, I64) && off <= |buf| && At(buf, off, EncodeItems(ws))
    ensures ReadIds(|ws|, buf, off) == Some((IdItems(ws), off + |EncodeItems(ws)|))
    decreases ws
  {
    if ws != [] {
      AtSplit(buf, off, Encode(ws[0]), EncodeItems(ws[1..]));
      ReadsIds(ws[1..], buf, off + 8);
    }
  }

  lemma IdsMeaning(w: Wire, buf: seq<byte>, off: nat)
    requires Fits(IdsS, w) && At(buf, off, Encode(w))
    ensures ReadVal(IdsS, buf, off) == Some(Got(Meaning(IdsS, w), off + |Encode(w)|))
  {
    ListBeginAt(w.elem, |w.items|, EncodeItems(w.items), buf, off);
    if w.items == [] {
      assert EncodeItems(w.items) == [] && ReadIds(0, buf, off + 5) == Some(([], off + 5));
    } else {
      ReadsIds(w.items, buf, off + 5);
    }
    hide ItemsWellFormed, EncodeItems, ReadIds, IdItems, ReadListBegin, BigEndian;
  }

  lemma FixedMeaning(s: Shape, w: Wire, buf: seq<byte>, off: nat)
    requires Fits(s, w) && (s.ByteS? || s.I16S? || s.I64S?) && At(buf, off, Encode(w))
    ensures ReadVal(s, buf, off) == Some(Got(Meaning(s, w), off + |Encode(w)|))
  {
    assert w.Fixed? && Encode(w) == w.raw;
  }

  lemma {:induction false} ReadsVal(s: Shape, w: Wire, buf: seq<byte>, off: nat)
    requires Fits(s, w) && At(buf, off, Encode(w))
    ensures ReadVal(s, buf, off) == Some(Got(Meaning(s, w), off + |Encode(w)|))
    decreases w, 1
  {
    match s
    case ByteS => FixedMeaning(s, w, buf, off);
    case I16S => FixedMeaning(s, w, buf, off);
    case I64S => FixedMeaning(s, w, buf, off);
    case StrS => StringAt(w.text, buf, off);
    case IdsS => IdsMeaning(w, buf, off);
    case StatsS => StatsMeaning(w, buf, off);
    case RecS(k) => RecordMeaning(k, w, buf, off);
  }

  lemma StatsMeaning(w: Wire, buf: seq<byte>, off: nat)
    requires Fits(StatsS, w) && At(buf, off, Encode(w))
    ensures ReadVal(StatsS, buf, off) == Some(Got(Meaning(StatsS, w), off + |Encode(w)|))
    decreases w, 0
  {
    ListBeginAt(w.elem, |w.items|, EncodeItems(w.items), buf, off);
    ReadsStats(w.items, buf, off + 5);
    hide ReadStats, StatItems, ItemsFit;
  }

  lemma RecordMeaning(k: Kind, w: Wire, buf: seq<byte>, off: nat)
    requires Fits(RecS(k), w) && At(buf, off, Encode(w))
    ensures ReadVal(RecS(k), buf, off) == Some(Got(Meaning(RecS(k), w), off + |Encode(w)|))
    decreases w, 0
  {
    ReadsRecord(Empty(k), w.fields, buf, off);
    hide ReadRecord, ApplyAll, FieldsFit, EncodeFields;
  }

  lemma ReadsStat(w: Wire, buf: seq<byte>, off: nat)
    requires Fits(RecS(KStat), w) && At(buf, off, Encode(w))
    ensures ReadRecord(Empty(KStat), buf, off) == (Meaning(RecS(KStat), w).rec, Some(off + |Encode(w)|))
    decreases w, 0
  {
    ReadsRecord(Empty(KStat), w.fields, buf, off);
    hide ReadRecord, ApplyAll, FieldsFit, EncodeFields;
  }

  lemma {:induction false} ReadsStats(ws: seq<Wire>, buf: seq<byte>, off: nat)
    requires ItemsFit(ws) && off <= |buf| && At(buf, off, EncodeItems(ws))
    ensures ReadStats(|ws|, buf, off) == Some((StatItems(ws), off + |EncodeItems(ws)|))
    decreases ws
  {
    hide ReadRecord, Meaning, Fits, Encode;
    if ws != [] {
      AtSplit(buf, off, Encode(ws[0]), EncodeItems(ws[1..]));
      ReadsStat(ws[0], buf, off);
      ReadsStats(ws[1..], buf, off + |Encode(ws[0])|);
    }
  }

  lemma ForeignSkipped(r: Record, f: Field, buf: seq<byte>, off: nat)
    requires FieldWellFormed(f) && Foreign(KindOf(r), f) && At(buf, off, Encode(f.wire))
    ensures ReadField(r, TypeOf(f.wire), f.id, buf, off) == (r, Some(off + |Encode(f.wire)|))
  {
    SkipsWellFormed(f.wire, buf, off);
    hide Skip;
  }

  /** One loop turn on a well-formed field: it is applied, and the offset passes its bytes. */
  lemma ReadsField(r: Record, f: Field, buf: seq<byte>, off: nat)
    requires FieldFits(KindOf(r), f) && At(buf, off, EncodeField(f))
    ensures ReadRecord(r, buf, off) == ReadRecord(Apply(r, f), buf, off + |EncodeField(f)|)
    decreases f
  {
    hide Encode, ReadVal, Skip, Meaning, Set, Schema, ReadFieldBegin;
    FieldBeginAt(f, buf, off);
    if Foreign(KindOf(r), f) {
      ForeignSkipped(r, f, buf, off + 3);
    } else {
      ReadsVal(Schema(KindOf(r), f.id).value, f.wire, buf, off + 3);
    }
    OneTurn(r, buf, off);
  }

  lemma OneTurn(r: Record, buf: seq<byte>, off: nat)
    requires var h := ReadFieldBegin(buf, off);
             h.Some? && h.value.ty != STOP && ReadField(r, h.value.ty, h.value.id, buf, h.value.next).1.Some?
    ensures var h := ReadFieldBegin(buf, off).value;
            var (t, o) := ReadField(r, h.ty, h.id, buf, h.next);
            ReadRecord(r, buf, off) == ReadRecord(t, buf, o.value)
  {
    hide ReadField, ReadFieldBegin;
  }

  lemma FirstFits(k: Kind, fs: seq<Field>)
    requires fs != [] && FieldsFit(k, fs)
    ensures FieldFits(k, fs[0]) && FieldsFit(k, fs[1..])
  {
  }

  lemma StopReads(r: Record, buf: seq<byte>, off: nat)
    requires At(buf, off, [STOP])
    ensures ReadRecord(r, buf, off) == (r, Some(off + 1))
  {
    StopAt(buf, off);
  }

  /** MAIN RESULT: on any well-formed struct the reader assigns the fields one by one, ignores
      the foreign ones, and stops right after the STOP byte. */
  lemma {:induction false} ReadsRecord(r: Record, fs: seq<Field>, buf: seq<byte>, off: nat)
    requires FieldsFit(KindOf(r), fs) && At(buf, off, EncodeFields(fs) + [STOP])
    ensures ReadRecord(r, buf, off) == (ApplyAll(r, fs), Some(off + |EncodeFields(fs)| + 1))
    decreases fs
  {
    hide ReadRecord, EncodeField, FieldsFit, FieldFits, Apply;
    if fs == [] {
      assert [] + [STOP] == [STOP];
      StopReads(r, buf, off);
    } else {
      FirstFits(KindOf(r), fs);
      FirstFieldAt(fs, buf, off);
      ReadsField(r, fs[0], buf, off);
      ReadsRecord(Apply(r, fs[0]), fs[1..], buf, off + |EncodeField(fs[0])|);
    }
  }
}
