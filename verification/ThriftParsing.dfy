/** The converse of writing and skipping: bytes that can be skipped are the encoding of a
    well-formed value. */
module ThriftParsing {
  import opened Wrappers
  import opened ThriftBinary

  lemma AtJoin(buf: seq<byte>, off: nat, a: seq<byte>, b: seq<byte>)
    requires At(buf, off, a) && At(buf, off + |a|, b)
    ensures At(buf, off, a + b)
  {
    assert buf[off..off + |a| + |b|] == buf[off..off + |a|] + buf[off + |a|..off + |a| + |b|];
  }

  lemma IntBytes(n: nat, buf: seq<byte>, off: nat)
    requires n > 0 && ReadInt(n, buf, off).Some?
    ensures At(buf, off, BigEndian(n, ReadInt(n, buf, off).value))
  {
    BigEndianOfSigned(buf[off..off + n]);
  }

  lemma ByteAt(buf: seq<byte>, off: nat)
    requires off < |buf|
    ensures At(buf, off, [buf[off]])
  {
    assert buf[off..off + 1] == [buf[off]];
  }

  lemma SizeIsBytes(buf: seq<byte>, off: nat)
    requires ReadSize(buf, off).Some?
    ensures At(buf, off, SizeBytes(ReadSize(buf, off).value))
  {
    IntBytes(4, buf, off);
  }

  lemma StringBytes(buf: seq<byte>, off: nat)
    requires ReadString(buf, off).Some?
    ensures var s := ReadString(buf, off).value.0;
            At(buf, off, SizeBytes(|s|) + s) && ReadString(buf, off).value.1 == off + |SizeBytes(|s|) + s|
  {
    var s := ReadString(buf, off).value.0;
    SizeIsBytes(buf, off);
    assert At(buf, off + 4, s);
    AtJoin(buf, off, SizeBytes(|s|), s);
  }

  lemma FieldBeginBytes(buf: seq<byte>, off: nat)
    requires ReadFieldBegin(buf, off).Some? && ReadFieldBegin(buf, off).value.ty != STOP
    ensures var h := ReadFieldBegin(buf, off).value;
            At(buf, off, [h.ty] + BigEndian(2, h.id)) && h.next == off + 3 && -0x8000 <= h.id < 0x8000
  {
    Widths();
    ByteAt(buf, off);
    IntBytes(2, buf, off + 1);
    AtJoin(buf, off, [buf[off]], BigEndian(2, ReadInt(2, buf, off + 1).value));
  }

  lemma ListBeginBytes(buf: seq<byte>, off: nat)
    requires ReadListBegin(buf, off).Some?
    ensures var h := ReadListBegin(buf, off).value; At(buf, off, [h.elem] + SizeBytes(h.size))
  {
    ByteAt(buf, off);
    SizeIsBytes(buf, off + 1);
    AtJoin(buf, off, [buf[off]], SizeBytes(ReadSize(buf, off + 1).value));
  }

  /** This value stands at the offset and fills the bytes up to `end`. */
  ghost predicate Spans(w: Wire, ty: byte, buf: seq<byte>, off: nat, end: nat) {
    WellFormed(w) && TypeOf(w) == ty && At(buf, off, Encode(w)) && end == off + |Encode(w)|
  }

  ghost predicate FieldsSpan(fs: seq<Field>, buf: seq<byte>, off: nat, end: nat) {
    FieldsWellFormed(fs) && At(buf, off, EncodeFields(fs) + [STOP]) && end == off + |EncodeFields(fs)| + 1
  }

  ghost predicate ItemsSpan(ws: seq<Wire>, a: byte, b: byte, buf: seq<byte>, off: nat, end: nat) {
    ItemsWellFormed(ws, a, b) && At(buf, off, EncodeItems(ws)) && end == off + |EncodeItems(ws)|
  }

  lemma {:induction false} SkippedIsWire(buf: seq<byte>, off: nat, ty: byte) returns (w: Wire)
    requires Skip(buf, off, ty).Some?
    ensures Spans(w, ty, buf, off, Skip(buf, off, ty).value)
    decreases |buf| - off, 1
  {
    if Width(ty) > 0 {
      w := Fixed(ty, buf[off..off + Width(ty)]);
    } else if ty == STRING {
      w := TextThere(buf, off);
    } else if ty == STRUCT {
      var fs := SkippedIsFields(buf, off);
      w := Struct(fs);
      hide SkipFields, FieldsWellFormed, EncodeFields;
    } else if ty == MAP {
      var h := ReadListBegin(buf, off + 1).value;
      var ws := SkippedIsItems(buf, h.next, buf[off], h.elem, 2 * h.size);
      w := MapThere(buf, off, ws, Skip(buf, off, ty).value);
    } else {
      var h := ReadListBegin(buf, off).value;
      var ws := SkippedIsItems(buf, h.next, h.elem, h.elem, h.size);
      w := CollThere(ty, buf, off, ws, Skip(buf, off, ty).value);
    }
  }

  lemma TextThere(buf: seq<byte>, off: nat) returns (w: Wire)
    requires ReadString(buf, off).Some?
    ensures Spans(w, STRING, buf, off, ReadString(buf, off).value.1)
  {
    StringBytes(buf, off);
    w := Text(ReadString(buf, off).value.0);
  }

  lemma MapThere(buf: seq<byte>, off: nat, ws: seq<Wire>, end: nat) returns (w: Wire)
    requires off < |buf| && ReadListBegin(buf, off + 1).Some?
    requires var h := ReadListBegin(buf, off + 1).value;
             |ws| == 2 * h.size && ItemsSpan(ws, buf[off], h.elem, buf, h.next, end)
    ensures Spans(w, MAP, buf, off, end)
  {
    hide ItemsWellFormed, EncodeItems, BigEndian, ReadListBegin, WellFormed, Encode;
    var h := ReadListBegin(buf, off + 1).value;
    ByteAt(buf, off);
    ListBeginBytes(buf, off + 1);
    AtJoin(buf, off + 1, [h.elem] + SizeBytes(h.size), EncodeItems(ws));
    AtJoin(buf, off, [buf[off]], [h.elem] + SizeBytes(h.size) + EncodeItems(ws));
    w := Map(buf[off], h.elem, ws);
    MapParts(w, h.size);
  }

  lemma MapParts(w: Wire, size: nat)
    requires w.Map? && |w.items| == 2 * size && size < TWO31 && ItemsWellFormed(w.items, w.key, w.val)
    ensures WellFormed(w) && TypeOf(w) == MAP
    ensures Encode(w) == [w.key] + ([w.val] + SizeBytes(size) + EncodeItems(w.items))
  {
    hide EncodeItems, BigEndian, ItemsWellFormed;
  }

  lemma CollThere(kind: byte, buf: seq<byte>, off: nat, ws: seq<Wire>, end: nat) returns (w: Wire)
    requires (kind == LIST || kind == SET) && ReadListBegin(buf, off).Some?
    requires var h := ReadListBegin(buf, off).value;
             |ws| == h.size && ItemsSpan(ws, h.elem, h.elem, buf, h.next, end)
    ensures Spans(w, kind, buf, off, end)
  {
    var h := ReadListBegin(buf, off).value;
    ListBeginBytes(buf, off);
    AtJoin(buf, off, [h.elem] + SizeBytes(h.size), EncodeItems(ws));
    w := Coll(kind, h.elem, ws);
    hide ItemsWellFormed, EncodeItems, BigEndian;
  }

  lemma {:induction false} SkippedIsFields(buf: seq<byte>, off: nat) returns (fs: seq<Field>)
    requires SkipFields(buf, off).Some?
    ensures FieldsSpan(fs, buf, off, SkipFields(buf, off).value)
    decreases |buf| - off, 0
  {
    var h := ReadFieldBegin(buf, off).value;
    if h.ty == STOP {
      NoFieldsThere(buf, off);
      return [];
    }
    var next := Skip(buf, h.next, h.ty).value;
    var w := SkippedIsWire(buf, h.next, h.ty);
    var rest := SkippedIsFields(buf, next);
    hide Skip, WellFormed, Encode, FieldsWellFormed, EncodeFields;
    FieldThere(Field(h.id, w), buf, off, next);
    FieldInFront(Field(h.id, w), rest, buf, off, next, SkipFields(buf, next).value);
    return [Field(h.id, w)] + rest;
  }

  lemma NoFieldsThere(buf: seq<byte>, off: nat)
    requires off < |buf| && buf[off] == STOP
    ensures FieldsSpan([], buf, off, off + 1)
  {
    ByteAt(buf, off);
    assert [] + [STOP] == [STOP];
  }

  lemma FieldThere(f: Field, buf: seq<byte>, off: nat, next: nat)
    requires ReadFieldBegin(buf, off) == Some(Header(TypeOf(f.wire), f.id, off + 3)) && TypeOf(f.wire) != STOP
    requires Spans(f.wire, TypeOf(f.wire), buf, off + 3, next)
    ensures FieldWellFormed(f) && At(buf, off, EncodeField(f)) && next == off + |EncodeField(f)|
  {
    hide Encode, WellFormed;
    FieldBeginBytes(buf, off);
    AtJoin(buf, off, [TypeOf(f.wire)] + BigEndian(2, f.id), Encode(f.wire));
  }

  lemma FieldInFront(f: Field, rest: seq<Field>, buf: seq<byte>, off: nat, next: nat, end: nat)
    requires FieldWellFormed(f) && At(buf, off, EncodeField(f)) && next == off + |EncodeField(f)|
    requires FieldsSpan(rest, buf, next, end)
    ensures FieldsSpan([f] + rest, buf, off, end)
  {
    hide FieldWellFormed, EncodeField;
    var fs := [f] + rest;
    assert fs[1..] == rest;
    assert EncodeFields(fs) + [STOP] == EncodeField(f) + (EncodeFields(rest) + [STOP]);
    AtJoin(buf, off, EncodeField(f), EncodeFields(rest) + [STOP]);
  }

  lemma {:induction false} SkippedIsItems(buf: seq<byte>, off: nat, a: byte, b: byte, n: nat) returns (ws: seq<Wire>)
    requires off <= |buf| && SkipItems(buf, off, a, b, n).Some?
    ensures |ws| == n && ItemsSpan(ws, a, b, buf, off, SkipItems(buf, off, a, b, n).value)
    decreases |buf| - off, 2
  {
    if n == 0 { return []; }
    var next := Skip(buf, off, a).value;
    var w := SkippedIsWire(buf, off, a);
    var rest := SkippedIsItems(buf, next, b, a, n - 1);
    ItemInFront(w, rest, a, b, buf, off, next, SkipItems(buf, next, b, a, n - 1).value);
    hide Skip, ItemsSpan, Spans;
    return [w] + rest;
  }

  lemma ItemInFront(w: Wire, rest: seq<Wire>, a: byte, b: byte, buf: seq<byte>, off: nat, next: nat, end: nat)
    requires Spans(w, a, buf, off, next) && ItemsSpan(rest, b, a, buf, next, end)
    ensures ItemsSpan([w] + rest, a, b, buf, off, end)
  {
    hide WellFormed, Encode;
    var ws := [w] + rest;
    assert ws[1..] == rest;
    AtJoin(buf, off, Encode(w), EncodeItems(rest));
  }

  /** MAIN RESULT: skipping accepts exactly the well-formed values: it ends at `end` if and
      only if the bytes up to there are the encoding of one. */
  lemma SkipsExactlyWellFormed(buf: seq<byte>, off: nat, ty: byte, end: nat)
    ensures Skip(buf, off, ty) == Some(end) <==> exists w :: Spans(w, ty, buf, off, end)
  {
    hide Skip;
    if Skip(buf, off, ty) == Some(end) {
      var w := SkippedIsWire(buf, off, ty);
    }
    if w :| Spans(w, ty, buf, off, end) {
      SkipsWellFormed(w, buf, off);
    }
  }
}
