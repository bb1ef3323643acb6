/** What a reader of the records tolerates: foreign fields at any depth, any field order, and
    nothing less than a whole record. */
module CommonCompatibility {
  import opened Wrappers
  import opened ThriftBinary
  import opened CommonRecords
  import opened CommonReader
  import opened CommonFormat

  // -------------------------------------------------------------- foreign fields

  lemma OneFieldFits(k: Kind, f: Field)
    ensures FieldsFit(k, [f]) <==> FieldFits(k, f)
    ensures EncodeFields([f]) == EncodeField(f)
  {
    assert [f][1..] == [];
    assert FieldsFit(k, []);
  }

  lemma {:induction false} WireTakesSpace(w: Wire)
    requires WellFormed(w)
    ensures |Encode(w)| >= 1
  {
  }

  /** MAIN RESULT: a well-formed field that is unknown or of another type, put between any two
      fields, leaves the record read unchanged and moves the end by exactly its length. */
  lemma ForeignFieldIgnored(r: Record, a: seq<Field>, u: Field, b: seq<Field>, buf: seq<byte>, off: nat)
    requires FieldsFit(KindOf(r), a + b) && FieldWellFormed(u) && Foreign(KindOf(r), u)
    requires At(buf, off, EncodeFields(a + [u] + b) + [STOP])
    ensures ReadRecord(r, buf, off) ==
            (ApplyAll(r, a + b), Some(off + |EncodeFields(a + b)| + 1 + |EncodeField(u)|))
    ensures |EncodeField(u)| >= 4
  {
    hide ReadRecord, EncodeField, Encode, FieldWellFormed, EncodeFields, FieldsFit, ApplyAll;
    var k := KindOf(r);
    FitsAppend(k, a, b);
    ForeignNeutral(r, a, u, b);
    ReadsRecord(r, a + [u] + b, buf, off);
    EncodeAppend(a, b);
    EncodeAppend(a, [u]);
    EncodeAppend(a + [u], b);
    OneFieldFits(k, u);
    ForeignSize(u);
  }

  lemma ForeignSize(u: Field)
    requires FieldWellFormed(u)
    ensures |EncodeField(u)| >= 4
  {
    WireTakesSpace(u.wire);
  }

  lemma ForeignNeutral(r: Record, a: seq<Field>, u: Field, b: seq<Field>)
    requires FieldsFit(KindOf(r), a) && FieldsFit(KindOf(r), b)
    requires FieldWellFormed(u) && Foreign(KindOf(r), u)
    ensures FieldsFit(KindOf(r), a + [u] + b) && FieldsFit(KindOf(r), a + b)
    ensures ApplyAll(r, a + [u] + b) == ApplyAll(r, a + b)
  {
    OneFieldFits(KindOf(r), u);
    ApplyAppend(r, a, b);
    ApplyAppend(r, a, [u]);
    ApplyAppend(r, a + [u], b);
    var t := ApplyAll(r, a);
    assert [u][1..] == [];
    assert ApplyAll(t, [u]) == ApplyAll(Apply(t, u), []) == t;
    hide FieldsFit, Apply, Foreign;
  }

  /** The struct without its foreign fields, and its records without theirs. */
  function Clean(k: Kind, fs: seq<Field>): seq<Field>
    requires FieldsFit(k, fs)
    decreases fs
  {
    if fs == [] then [] else
    (if Foreign(k, fs[0]) then [] else [CleanField(k, fs[0])]) + Clean(k, fs[1..])
  }

  function CleanField(k: Kind, f: Field): Field
    requires FieldFits(k, f) && !Foreign(k, f)
    decreases f
  {
    Field(f.id, CleanWire(Schema(k, f.id).value, f.wire))
  }

  function CleanWire(s: Shape, w: Wire): (c: Wire)
    requires Fits(s, w)
    ensures TypeOf(c) == TypeOf(w)
    decreases w
  {
    match s
    case RecS(k) => Struct(Clean(k, w.fields))
    case StatsS => Coll(w.kind, w.elem, CleanItems(w.items))
    case _ => w
  }

  function CleanItems(ws: seq<Wire>): (cs: seq<Wire>)
    requires ItemsFit(ws)
    ensures |cs| == |ws|
    decreases ws
  {
    if ws == [] then [] else [CleanWire(RecS(KStat), ws[0])] + CleanItems(ws[1..])
  }

  lemma {:induction false} CleanWireMeans(s: Shape, w: Wire)
    requires Fits(s, w)
    ensures Fits(s, CleanWire(s, w)) && Meaning(s, CleanWire(s, w)) == Meaning(s, w)
    decreases w, 1
  {
    match s
    case RecS(k) => CleanStructMeans(k, w);
    case StatsS => CleanStatsMeans(w);
    case _ =>
  }

  lemma CleanStructMeans(k: Kind, w: Wire)
    requires Fits(RecS(k), w)
    ensures Fits(RecS(k), CleanWire(RecS(k), w)) && Meaning(RecS(k), CleanWire(RecS(k), w)) == Meaning(RecS(k), w)
    decreases w, 0
  {
    CleanMeans(Empty(k), w.fields);
    FitIsWellFormed(k, Clean(k, w.fields));
    hide Clean, FieldsFit, ApplyAll, FieldsWellFormed;
  }

  lemma CleanStatsMeans(w: Wire)
    requires Fits(StatsS, w)
    ensures Fits(StatsS, CleanWire(StatsS, w)) && Meaning(StatsS, CleanWire(StatsS, w)) == Meaning(StatsS, w)
    decreases w, 0
  {
    CleanItemsMean(w.items, w.elem);
    hide CleanItems, ItemsFit, StatItems, ItemsWellFormed;
  }

  lemma {:induction false} CleanItemsMean(ws: seq<Wire>, elem: byte)
    requires ItemsFit(ws) && ItemsWellFormed(ws, elem, elem)
    ensures ItemsFit(CleanItems(ws)) && ItemsWellFormed(CleanItems(ws), elem, elem)
    ensures StatItems(CleanItems(ws)) == StatItems(ws)
    decreases ws
  {
    if ws != [] {
      CleanWireMeans(RecS(KStat), ws[0]);
      CleanItemsMean(ws[1..], elem);
      assert CleanItems(ws)[1..] == CleanItems(ws[1..]);
    }
    hide CleanWire, Meaning, Fits;
  }

  lemma CleanFieldMeans(r: Record, f: Field)
    requires FieldFits(KindOf(r), f) && !Foreign(KindOf(r), f)
    ensures var c := CleanField(KindOf(r), f);
            FieldFits(KindOf(r), c) && Apply(r, c) == Apply(r, f)
    decreases f
  {
    CleanWireMeans(Schema(KindOf(r), f.id).value, f.wire);
    hide CleanWire, Meaning, Schema, Set, WellFormed;
  }

  /** MAIN RESULT: foreign fields do not matter at any depth: a struct means the same as the
      struct without them, so records from a newer schema read as if written by the known one. */
  lemma {:induction false} CleanMeans(r: Record, fs: seq<Field>)
    requires FieldsFit(KindOf(r), fs)
    ensures FieldsFit(KindOf(r), Clean(KindOf(r), fs))
    ensures ApplyAll(r, Clean(KindOf(r), fs)) == ApplyAll(r, fs)
    decreases fs
  {
    hide Foreign, FieldFits, CleanField;
    if fs != [] {
      FirstFits(KindOf(r), fs);
      var rest := Clean(KindOf(r), fs[1..]);
      if Foreign(KindOf(r), fs[0]) {
        CleanMeans(r, fs[1..]);
        ForeignFirst(r, fs);
        assert Clean(KindOf(r), fs) == rest;
      } else {
        CleanFieldMeans(r, fs[0]);
        CleanMeans(Apply(r, fs[0]), fs[1..]);
        assert Clean(KindOf(r), fs)[1..] == rest;
      }
    }
  }

  lemma ForeignFirst(r: Record, fs: seq<Field>)
    requires fs != [] && FieldsFit(KindOf(r), fs) && Foreign(KindOf(r), fs[0])
    ensures ApplyAll(r, fs) == ApplyAll(r, fs[1..])
  {
  }

  // ------------------------------------------------------------------ field order

  /** Two neighbouring fields with different ids may be exchanged. */
  lemma NeighboursCommute(r: Record, a: seq<Field>, f: Field, g: Field, b: seq<Field>)
    requires FieldsFit(KindOf(r), a) && FieldsFit(KindOf(r), b)
    requires FieldFits(KindOf(r), f) && FieldFits(KindOf(r), g) && f.id != g.id
    ensures FieldsFit(KindOf(r), a + [f, g] + b) && FieldsFit(KindOf(r), a + [g, f] + b)
    ensures ApplyAll(r, a + [f, g] + b) == ApplyAll(r, a + [g, f] + b)
  {
    var t := ApplyAll(r, a);
    PairApplied(t, f, g);
    PairApplied(t, g, f);
    ApplyCommutes(t, f, g);
    hide FieldsFit, FieldFits, Apply;
    ApplyAppend(r, a, [f, g]);
    ApplyAppend(r, a + [f, g], b);
    ApplyAppend(r, a, [g, f]);
    ApplyAppend(r, a + [g, f], b);
  }

  lemma PairApplied(t: Record, f: Field, g: Field)
    requires FieldFits(KindOf(t), f) && FieldFits(KindOf(t), g)
    ensures FieldsFit(KindOf(t), [f, g]) && ApplyAll(t, [f, g]) == Apply(Apply(t, f), g)
  {
    hide Apply, Foreign;
    assert [f, g][1..] == [g] && [g][1..] == [];
    OneFieldFits(KindOf(t), g);
    var u := Apply(t, f);
    assert ApplyAll(u, [g]) == ApplyAll(Apply(u, g), []);
  }

  lemma ApplyCommutes(t: Record, f: Field, g: Field)
    requires FieldFits(KindOf(t), f) && FieldFits(KindOf(t), g) && f.id != g.id
    ensures Apply(Apply(t, f), g) == Apply(Apply(t, g), f)
  {
    if !Foreign(KindOf(t), f) && !Foreign(KindOf(t), g) {
      SetCommutes(t, f.id, Meaning(Schema(KindOf(t), f.id).value, f.wire), g.id, Meaning(Schema(KindOf(t), g.id).value, g.wire));
    }
    hide Meaning, Schema, Set, Fits, FieldWellFormed;
  }

  lemma SetCommutes(t: Record, i: int, v: Val, j: int, w: Val)
    requires i != j && Schema(KindOf(t), i) == Some(ShapeOf(v)) && Schema(KindOf(t), j) == Some(ShapeOf(w))
    ensures Schema(KindOf(Set(t, i, v)), j) == Some(ShapeOf(w)) && Schema(KindOf(Set(t, j, w)), i) == Some(ShapeOf(v))
    ensures Set(Set(t, i, v), j, w) == Set(Set(t, j, w), i, v)
  {
    SetKeepsKind(t, i, v);
    SetKeepsKind(t, j, w);
    var a, b := Set(Set(t, i, v), j, w), Set(Set(t, j, w), i, v);
    SetKeepsKind(Set(t, i, v), j, w);
    SetKeepsKind(Set(t, j, w), i, v);
    forall id ensures Get(a, id) == Get(b, id) {
      GetAfterSet(t, i, v, id);
      GetAfterSet(t, j, w, id);
      GetAfterSet(Set(t, i, v), j, w, id);
      GetAfterSet(Set(t, j, w), i, v, id);
    }
    FieldsDetermine(a, b);
  }

  // ------------------------------------------------------------------- truncation

  lemma IntExtends(n: nat, buf: seq<byte>, big: seq<byte>, off: nat)
    requires n > 0 && buf <= big && ReadInt(n, buf, off).Some?
    ensures ReadInt(n, big, off) == ReadInt(n, buf, off)
  {
    assert big[off..off + n] == buf[off..off + n];
  }

  lemma SizeExtends(buf: seq<byte>, big: seq<byte>, off: nat)
    requires buf <= big && ReadSize(buf, off).Some?
    ensures ReadSize(big, off) == ReadSize(buf, off)
  {
    IntExtends(4, buf, big, off);
  }

  lemma StringExtends(buf: seq<byte>, big: seq<byte>, off: nat)
    requires buf <= big && ReadString(buf, off).Some?
    ensures ReadString(big, off) == ReadString(buf, off)
  {
    SizeExtends(buf, big, off);
    var n := ReadSize(buf, off).value;
    assert big[off + 4..off + 4 + n] == buf[off + 4..off + 4 + n];
  }

  lemma HeaderExtends(buf: seq<byte>, big: seq<byte>, off: nat)
    requires buf <= big && ReadFieldBegin(buf, off).Some?
    ensures ReadFieldBegin(big, off) == ReadFieldBegin(buf, off)
  {
    if buf[off] != STOP { IntExtends(2, buf, big, off + 1); }
  }

  lemma ListExtends(buf: seq<byte>, big: seq<byte>, off: nat)
    requires buf <= big && ReadListBegin(buf, off).Some?
    ensures ReadListBegin(big, off) == ReadListBegin(buf, off)
  {
    SizeExtends(buf, big, off + 1);
  }

  /** What was skipped in a prefix is skipped alike in the longer buffer. */
  lemma {:induction false} SkipExtends(buf: seq<byte>, big: seq<byte>, off: nat, ty: byte)
    requires buf <= big && Skip(buf, off, ty).Some?
    ensures Skip(big, off, ty) == Skip(buf, off, ty)
    decreases |buf| - off, 1
  {
    if Width(ty) > 0 {
    } else if ty == STRING {
      StringExtends(buf, big, off);
    } else if ty == STRUCT {
      SkipFieldsExtends(buf, big, off);
    } else if ty == MAP {
      ListExtends(buf, big, off + 1);
      var h := ReadListBegin(buf, off + 1).value;
      SkipItemsExtends(buf, big, h.next, buf[off], h.elem, 2 * h.size);
    } else {
      ListExtends(buf, big, off);
      var h := ReadListBegin(buf, off).value;
      SkipItemsExtends(buf, big, h.next, h.elem, h.elem, h.size);
    }
    hide SkipFields, SkipItems, ReadString, ReadListBegin;
  }

  lemma {:induction false} SkipFieldsExtends(buf: seq<byte>, big: seq<byte>, off: nat)
    requires buf <= big && SkipFields(buf, off).Some?
    ensures SkipFields(big, off) == SkipFields(buf, off)
    decreases |buf| - off, 0
  {
    HeaderExtends(buf, big, off);
    var h := ReadFieldBegin(buf, off).value;
    if h.ty != STOP {
      SkipExtends(buf, big, h.next, h.ty);
      SkipFieldsExtends(buf, big, Skip(buf, h.next, h.ty).value);
    }
    hide Skip, ReadFieldBegin;
  }

  lemma {:induction false} SkipItemsExtends(buf: seq<byte>, big: seq<byte>, off: nat, a: byte, b: byte, n: nat)
    requires buf <= big && off <= |buf| && SkipItems(buf, off, a, b, n).Some?
    ensures SkipItems(big, off, a, b, n) == SkipItems(buf, off, a, b, n)
    decreases |buf| - off, 2
  {
    if n > 0 {
      SkipExtends(buf, big, off, a);
      SkipItemsExtends(buf, big, Skip(buf, off, a).value, b, a, n - 1);
    }
    hide Skip;
  }

  lemma {:induction false} IdsExtends(n: nat, buf: seq<byte>, big: seq<byte>, off: nat)
    requires buf <= big && off <= |buf| && ReadIds(n, buf, off).Some?
    ensures ReadIds(n, big, off) == ReadIds(n, buf, off)
  {
    if n > 0 {
      IntExtends(8, buf, big, off);
      IdsExtends(n - 1, buf, big, off + 8);
    }
  }

  lemma {:induction false} StatsExtends(n: nat, buf: seq<byte>, big: seq<byte>, off: nat)
    requires buf <= big && off <= |buf| && ReadStats(n, buf, off).Some?
    ensures ReadStats(n, big, off) == ReadStats(n, buf, off)
    decreases |buf| - off, 2
  {
    if n > 0 {
      RecordExtends(Empty(KStat), buf, big, off);
      StatsExtends(n - 1, buf, big, ReadRecord(Empty(KStat), buf, off).1.value);
    }
    hide ReadRecord;
  }

  lemma {:induction false} ValExtends(s: Shape, buf: seq<byte>, big: seq<byte>, off: nat)
    requires buf <= big && ReadVal(s, buf, off).Some?
    ensures ReadVal(s, big, off) == ReadVal(s, buf, off)
    decreases |buf| - off, 1
  {
    match s
    case ByteS => IntExtends(1, buf, big, off);
    case I16S => IntExtends(2, buf, big, off);
    case I64S => IntExtends(8, buf, big, off);
    case StrS => StringExtends(buf, big, off);
    case IdsS =>
      ListExtends(buf, big, off);
      IdsExtends(ReadListBegin(buf, off).value.size, buf, big, off + 5);
    case StatsS =>
      ListExtends(buf, big, off);
      StatsExtends(ReadListBegin(buf, off).value.size, buf, big, off + 5);
    case RecS(k) => RecordExtends(Empty(k), buf, big, off);
  }

  lemma FieldExtends(r: Record, ty: byte, id: int, buf: seq<byte>, big: seq<byte>, off: nat)
    requires buf <= big && ReadField(r, ty, id, buf, off).1.Some?
    ensures ReadField(r, ty, id, big, off) == ReadField(r, ty, id, buf, off)
    decreases |buf| - off, 2
  {
    var s := Schema(KindOf(r), id);
    if s.Some? && TypeOfShape(s.value) == ty {
      ValExtends(s.value, buf, big, off);
    } else {
      SkipExtends(buf, big, off, ty);
    }
    hide Schema, Set, ReadVal, Skip;
  }

  /** A record that can be read from a prefix is read alike from the longer buffer. */
  lemma {:induction false} RecordExtends(r: Record, buf: seq<byte>, big: seq<byte>, off: nat)
    requires buf <= big && ReadRecord(r, buf, off).1.Some?
    ensures ReadRecord(r, big, off) == ReadRecord(r, buf, off)
    decreases |buf| - off, 0
  {
    HeaderExtends(buf, big, off);
    var h := ReadFieldBegin(buf, off).value;
    if h.ty != STOP {
      FieldExtends(r, h.ty, h.id, buf, big, h.next);
      var (t, o) := ReadField(r, h.ty, h.id, buf, h.next);
      RecordExtends(t, buf, big, o.value);
    }
    hide ReadField, ReadFieldBegin;
  }

  /** MAIN RESULT: no strict prefix of a written record can be read: a truncated record is
      always an error, never a shorter record. */
  lemma TruncationDetected(r: Record, cut: nat)
    requires cut < |Bytes(r)|
    ensures ReadRecord(Empty(KindOf(r)), Bytes(r)[..cut], 0).1.None?
  {
    var whole, part := Bytes(r), Bytes(r)[..cut];
    assert whole[0..0 + |whole|] == whole;
    RoundTrip(r, whole, 0);
    hide ReadRecord, Bytes;
    if ReadRecord(Empty(KindOf(r)), part, 0).1.Some? {
      RecordExtends(Empty(KindOf(r)), part, whole, 0);
    }
  }

  /** Well-formed fields are assigned before anything that follows is looked at. */
  lemma {:induction false} FieldsReadFirst(r: Record, fs: seq<Field>, buf: seq<byte>, off: nat)
    requires FieldsFit(KindOf(r), fs) && At(buf, off, EncodeFields(fs))
    ensures KindOf(ApplyAll(r, fs)) == KindOf(r)
    ensures ReadRecord(r, buf, off) == ReadRecord(ApplyAll(r, fs), buf, off + |EncodeFields(fs)|)
    decreases fs
  {
    hide ReadRecord, EncodeField, FieldsFit, FieldFits, Apply;
    if fs != [] {
      FirstFits(KindOf(r), fs);
      AtSplit(buf, off, EncodeField(fs[0]), EncodeFields(fs[1..]));
      ReadsField(r, fs[0], buf, off);
      FieldsReadFirst(Apply(r, fs[0]), fs[1..], buf, off + |EncodeField(fs[0])|);
    }
  }

  /** No field can be read here: there is no header, or the value behind it cannot be read. */
  predicate Stuck(r: Record, buf: seq<byte>, off: nat) {
    var h := ReadFieldBegin(buf, off);
    h.None? || (h.value.ty != STOP && ReadField(r, h.value.ty, h.value.id, buf, h.value.next).1.None?)
  }

  /** A read that fails has assigned exactly the fields before the one it fails in. */
  lemma FailedReadKeepsFields(r: Record, fs: seq<Field>, buf: seq<byte>, off: nat)
    requires FieldsFit(KindOf(r), fs) && At(buf, off, EncodeFields(fs))
    requires Stuck(ApplyAll(r, fs), buf, off + |EncodeFields(fs)|)
    ensures ReadRecord(r, buf, off) == (ApplyAll(r, fs), None)
  {
    FieldsReadFirst(r, fs, buf, off);
    StuckReads(ApplyAll(r, fs), buf, off + |EncodeFields(fs)|);
    hide ReadRecord, Stuck;
  }

  lemma StuckReads(r: Record, buf: seq<byte>, off: nat)
    requires Stuck(r, buf, off)
    ensures ReadRecord(r, buf, off) == (r, None)
  {
    hide ReadVal, Skip, ReadFieldBegin;
  }

  /** So a written record cut off behind some of its fields gives exactly these. */
  lemma CutBetweenFields(r: Record, k: nat)
    requires k <= |FieldsOf(r)|
    ensures FieldsFit(KindOf(r), FieldsOf(r)[..k])
    ensures ReadRecord(Empty(KindOf(r)), EncodeFields(FieldsOf(r)[..k]), 0) ==
            (ApplyAll(Empty(KindOf(r)), FieldsOf(r)[..k]), None)
  {
    hide FieldsOf, FieldsFit, ApplyAll;
    StructRoundTrip(r);
    assert FieldsOf(r) == FieldsOf(r)[..k] + FieldsOf(r)[k..];
    FitsAppend(KindOf(r), FieldsOf(r)[..k], FieldsOf(r)[k..]);
    NothingBehind(Empty(KindOf(r)), FieldsOf(r)[..k]);
  }

  lemma NothingBehind(r: Record, fs: seq<Field>)
    requires FieldsFit(KindOf(r), fs)
    ensures ReadRecord(r, EncodeFields(fs), 0) == (ApplyAll(r, fs), None)
  {
    hide ReadRecord, ReadField, FieldsFit, ApplyAll, EncodeFields;
    var bytes := EncodeFields(fs);
    assert bytes[0..0 + |bytes|] == bytes;
    FailedReadKeepsFields(r, fs, bytes, 0);
  }

  // ------------------------------------------------------------------------ traps

  /** The union reader takes as many fields as it is sent. */
  lemma UnionReadsTwo(sdp: Str, text: Str, buf: seq<byte>, off: nat)
    requires At(buf, off, EncodeFields([Field(10, Text(sdp)), Field(13, Text(text))]) + [STOP])
    ensures var d := ReadRecord(Empty(KData), buf, off).0.data;
            d.sdp == Some(sdp) && d.text == Some(text) && ReadRecord(Empty(KData), buf, off).1.Some?
  {
    var f, g := Field(10, Text(sdp)), Field(13, Text(text));
    assert Fits(StrS, f.wire) && Fits(StrS, g.wire);
    assert FieldFits(KData, f) && FieldFits(KData, g);
    PairApplied(Empty(KData), f, g);
    ReadsRecord(Empty(KData), [f, g], buf, off);
  }

  /** Some field of the struct is the one declared under this id. */
  ghost predicate Declares(k: Kind, fs: seq<Field>, id: int) {
    exists i :: 0 <= i < |fs| && fs[i].id == id && !Foreign(k, fs[i])
  }

  lemma DeclaresFirst(k: Kind, fs: seq<Field>, id: int)
    requires fs != []
    ensures Declares(k, fs, id) <==> (fs[0].id == id && !Foreign(k, fs[0])) || Declares(k, fs[1..], id)
  {
    if i: nat :| i < |fs| && fs[i].id == id && !Foreign(k, fs[i]) {
      if i > 0 { assert fs[1..][i - 1] == fs[i]; }
    }
  }

  lemma AppliedIsSet(r: Record, f: Field, id: int)
    requires FieldFits(KindOf(r), f)
    ensures Get(Apply(r, f), id).Some? <==> Get(r, id).Some? || (f.id == id && !Foreign(KindOf(r), f))
  {
    if !Foreign(KindOf(r), f) {
      GetAfterSet(r, f.id, Meaning(Schema(KindOf(r), f.id).value, f.wire), id);
    }
    hide Get, Set, Meaning, Schema, Fits;
  }

  /** A field is set afterwards exactly if it was before or the struct declares it. */
  lemma {:induction false} SetIfDeclared(r: Record, fs: seq<Field>, id: int)
    requires FieldsFit(KindOf(r), fs)
    ensures Get(ApplyAll(r, fs), id).Some? <==> Get(r, id).Some? || Declares(KindOf(r), fs, id)
    decreases fs
  {
    hide Get, Foreign, Declares, FieldFits, Apply;
    if fs == [] {
      assert !Declares(KindOf(r), [], id) by { NothingDeclared(KindOf(r), id); }
    } else {
      FirstFits(KindOf(r), fs);
      AppliedIsSet(r, fs[0], id);
      SetIfDeclared(Apply(r, fs[0]), fs[1..], id);
      DeclaresFirst(KindOf(r), fs, id);
    }
  }

  lemma NothingDeclared(k: Kind, id: int)
    ensures !Declares(k, [], id)
  {
  }

  ghost predicate OnlyDeclares(fs: seq<Field>, id: int) {
    Declares(KData, fs, id) && forall j :: Declares(KData, fs, j) ==> j == id
  }

  ghost predicate OnlySet(r: Record, id: int) {
    Get(r, id).Some? && forall j :: Get(r, j).Some? ==> j == id
  }

  function FirstSet(d: Data): int {
    if d.userInfo.Some? then 1 else if d.lessonInfo.Some? then 2 else if d.quizInfo.Some? then 3
    else if d.chatInfo.Some? then 4 else if d.sdp.Some? then 10 else if d.filename.Some? then 11
    else if d.idList.Some? then 12 else 13
  }

  lemma OneSetField(d: Data)
    ensures CountSetFields(d) == 1 ==> OnlySet(RData(d), FirstSet(d))
  {
  }

  lemma OnlySetCounts(d: Data, id: int)
    requires OnlySet(RData(d), id)
    ensures CountSetFields(d) == 1
  {
    var r := RData(d);
    assert Get(r, 1).Some? ==> id == 1;
    assert Get(r, 2).Some? ==> id == 2;
    assert Get(r, 3).Some? ==> id == 3;
    assert Get(r, 4).Some? ==> id == 4;
    assert Get(r, 10).Some? ==> id == 10;
    assert Get(r, 11).Some? ==> id == 11;
    assert Get(r, 12).Some? ==> id == 12;
    assert Get(r, 13).Some? ==> id == 13;
  }

  lemma OnlySetIfOnlyDeclared(fs: seq<Field>, id: int)
    requires FieldsFit(KData, fs)
    ensures OnlySet(ApplyAll(Empty(KData), fs), id) <==> OnlyDeclares(fs, id)
  {
    hide Get, Declares, ApplyAll, FieldsFit, Empty;
    forall j ensures Get(ApplyAll(Empty(KData), fs), j).Some? <==> Declares(KData, fs, j) {
      SetIfDeclared(Empty(KData), fs, j);
      NothingSet(j);
    }
  }

  lemma NothingSet(id: int)
    ensures Get(Empty(KData), id).None?
  {
  }

  /** What the union's reader gives can be written again exactly if the struct read declares
      one field and no other, however often it is repeated. */
  lemma ReadUnionWritableIff(fs: seq<Field>)
    requires FieldsFit(KData, fs)
    ensures Encodable(ApplyAll(Empty(KData), fs)) <==> exists id :: OnlyDeclares(fs, id)
  {
    hide Get, OnlySet, OnlyDeclares, CountSetFields, ApplyAll, Empty, FieldsFit;
    var r := ApplyAll(Empty(KData), fs);
    OneSetField(r.data);
    OnlySetIfOnlyDeclared(fs, FirstSet(r.data));
    if id :| OnlyDeclares(fs, id) {
      OnlySetIfOnlyDeclared(fs, id);
      OnlySetCounts(r.data, id);
    }
  }
}
