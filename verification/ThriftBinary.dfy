/** The Thrift binary protocol: base types, structs and collections as bytes, and skipping. The
    source's primitives live in a library; these follow the sections "Struct" and "List and
    Set" and the base-type encodings of the Apache Thrift binary protocol specification. */
module ThriftBinary {
  import opened Wrappers

  type byte = x: int | 0 <= x < 256

  const TWO31 := 0x8000_0000

  const STOP: byte := 0
  const BOOL: byte := 2
  const BYTE: byte := 3
  const DOUBLE: byte := 4
  const I16: byte := 6
  const I32: byte := 8
  const I64: byte := 10
  const STRING: byte := 11
  const STRUCT: byte := 12
  const MAP: byte := 13
  const SET: byte := 14
  const LIST: byte := 15

  // ------------------------------------------------------------------- integers

  function Half(n: nat): (h: int)
    requires n > 0
    ensures h > 0
  {
    if n == 1 then 128 else 256 * Half(n - 1)
  }

  /** The n low bytes of the two's complement of x, most significant first. */
  function BigEndian(n: nat, x: int): (b: seq<byte>)
    ensures |b| == n
  {
    if n == 0 then [] else BigEndian(n - 1, x / 256) + [x % 256]
  }

  function Signed(b: seq<byte>): (x: int)
    requires b != []
    ensures -Half(|b|) <= x < Half(|b|)
  {
    if |b| == 1 then (if b[0] < 128 then b[0] else b[0] - 256)
    else 256 * Signed(b[..|b| - 1]) + b[|b| - 1]
  }

  lemma {:induction false} SignedOfBigEndian(n: nat, x: int)
    requires n > 0 && -Half(n) <= x < Half(n)
    ensures Signed(BigEndian(n, x)) == x
  {
    var b := BigEndian(n, x);
    if n > 1 {
      SignedOfBigEndian(n - 1, x / 256);
      assert b[..n - 1] == BigEndian(n - 1, x / 256);
    } else {
      assert BigEndian(0, x / 256) == [];
      assert b == [x % 256];
    }
  }

  lemma {:induction false} BigEndianOfSigned(b: seq<byte>)
    requires b != []
    ensures BigEndian(|b|, Signed(b)) == b
  {
    if |b| > 1 {
      var init := b[..|b| - 1];
      BigEndianOfSigned(init);
      assert Signed(b) / 256 == Signed(init) && Signed(b) % 256 == b[|b| - 1];
      assert b == init + [b[|b| - 1]];
    } else {
      assert BigEndian(0, Signed(b) / 256) == [];
      assert b == [b[0]];
    }
  }

  lemma Widths()
    ensures Half(1) == 0x80 && Half(2) == 0x8000
    ensures Half(4) == TWO31 && Half(8) == 0x8000_0000_0000_0000
  {
    assert Half(3) == 256 * 0x8000;
    assert Half(5) == 256 * TWO31;
    assert Half(6) == 256 * 256 * TWO31;
    assert Half(7) == 256 * 256 * 256 * TWO31;
  }

  // ----------------------------------------------------------- bytes in a buffer

  ghost predicate At(buf: seq<byte>, off: nat, bytes: seq<byte>) {
    off + |bytes| <= |buf| && buf[off..off + |bytes|] == bytes
  }

  lemma AtSplit(buf: seq<byte>, off: nat, a: seq<byte>, b: seq<byte>)
    requires At(buf, off, a + b)
    ensures At(buf, off, a) && At(buf, off + |a|, b)
  {
    var all := buf[off..off + |a + b|];
    assert buf[off..off + |a|] == all[..|a|] == a;
    assert buf[off + |a|..off + |a| + |b|] == all[|a|..] == b;
  }

  // -------------------------------------------------------------------- readers

  function ReadInt(n: nat, buf: seq<byte>, off: nat): (r: Option<int>)
    requires n > 0
    ensures r.Some? ==> -Half(n) <= r.value < Half(n) && off + n <= |buf|
  {
    if off + n <= |buf| then Some(Signed(buf[off..off + n])) else None
  }

  /** A length or a count: negative ones are refused. */
  function ReadSize(buf: seq<byte>, off: nat): (r: Option<nat>)
    ensures r.Some? ==> r.value < TWO31 && off + 4 <= |buf|
  {
    Widths();
    var n := ReadInt(4, buf, off);
    if n.None? || n.value < 0 then None else Some(n.value)
  }

  function ReadString(buf: seq<byte>, off: nat): (r: Option<(seq<byte>, nat)>)
    ensures r.Some? ==> off < r.value.1 <= |buf| && |r.value.0| < TWO31
  {
    var n := ReadSize(buf, off);
    if n.None? || off + 4 + n.value > |buf| then None else
    Some((buf[off + 4..off + 4 + n.value], off + 4 + n.value))
  }

  datatype Header = Header(ty: byte, id: int, next: nat)

  /** A field header; STOP stands alone. */
  function ReadFieldBegin(buf: seq<byte>, off: nat): (r: Option<Header>)
    ensures r.Some? ==> off < r.value.next <= |buf|
  {
    if off >= |buf| then None else
    if buf[off] == STOP then Some(Header(STOP, 0, off + 1)) else
    var id := ReadInt(2, buf, off + 1);
    if id.None? then None else Some(Header(buf[off], id.value, off + 3))
  }

  datatype ListHeader = ListHeader(elem: byte, size: nat, next: nat)

  function ReadListBegin(buf: seq<byte>, off: nat): (r: Option<ListHeader>)
    ensures r.Some? ==> r.value.next == off + 5 <= |buf| && r.value.size < TWO31
  {
    if off >= |buf| then None else
    var n := ReadSize(buf, off + 1);
    if n.None? then None else Some(ListHeader(buf[off], n.value, off + 5))
  }

  // ------------------------------------------------------------------- skipping

  /** The size of a fixed-width type, 0 for the others. */
  function Width(ty: byte): nat {
    if ty == BOOL || ty == BYTE then 1
    else if ty == I16 then 2
    else if ty == I32 then 4
    else if ty == I64 || ty == DOUBLE then 8
    else 0
  }

  /** The offset after one value of the given type. Every value takes at least one byte. */
  function Skip(buf: seq<byte>, off: nat, ty: byte): (r: Option<nat>)
    ensures r.Some? ==> off < r.value <= |buf|
    decreases |buf| - off, 1
  {
    if Width(ty) > 0 then
      if off + Width(ty) <= |buf| then Some(off + Width(ty)) else None
    else if ty == STRING then
      var s := ReadString(buf, off);
      if s.None? then None else Some(s.value.1)
    else if ty == STRUCT then SkipFields(buf, off)
    else if ty == MAP then
      if off >= |buf| then None else
      var h := ReadListBegin(buf, off + 1);
      if h.None? then None else SkipItems(buf, h.value.next, buf[off], h.value.elem, 2 * h.value.size)
    else if ty == LIST || ty == SET then
      var h := ReadListBegin(buf, off);
      if h.None? then None else SkipItems(buf, h.value.next, h.value.elem, h.value.elem, h.value.size)
    else None
  }

  function SkipFields(buf: seq<byte>, off: nat): (r: Option<nat>)
    ensures r.Some? ==> off < r.value <= |buf|
    decreases |buf| - off, 0
  {
    var h := ReadFieldBegin(buf, off);
    if h.None? then None
    else if h.value.ty == STOP then Some(h.value.next)
    else
      var o := Skip(buf, h.value.next, h.value.ty);
      if o.None? then None else SkipFields(buf, o.value)
  }

  /** n values whose types alternate between a and b. */
  function SkipItems(buf: seq<byte>, off: nat, a: byte, b: byte, n: nat): (r: Option<nat>)
    requires off <= |buf|
    ensures r.Some? ==> off <= r.value <= |buf|
    decreases |buf| - off, 2
  {
    if n == 0 then Some(off) else
    var o := Skip(buf, off, a);
    if o.None? then None else SkipItems(buf, o.value, b, a, n - 1)
  }

  // ----------------------------------------------------------- well-formed values

  /** A value on the wire. The items of a map alternate keys and values. */
  datatype Wire =
    | Fixed(ty: byte, raw: seq<byte>)
    | Text(text: seq<byte>)
    | Struct(fields: seq<Field>)
    | Map(key: byte, val: byte, items: seq<Wire>)
    | Coll(kind: byte, elem: byte, items: seq<Wire>)

  datatype Field = Field(id: int, wire: Wire)

  function TypeOf(w: Wire): byte {
    match w
    case Fixed(ty, _) => ty
    case Text(_) => STRING
    case Struct(_) => STRUCT
    case Map(_, _, _) => MAP
    case Coll(kind, _, _) => kind
  }

  predicate WellFormed(w: Wire) {
    match w
    case Fixed(ty, raw) => Width(ty) > 0 && |raw| == Width(ty)
    case Text(text) => |text| < TWO31
    case Struct(fields) => FieldsWellFormed(fields)
    case Map(key, val, items) => |items| % 2 == 0 && |items| / 2 < TWO31 && ItemsWellFormed(items, key, val)
    case Coll(kind, elem, items) => (kind == LIST || kind == SET) && |items| < TWO31 && ItemsWellFormed(items, elem, elem)
  }

  predicate FieldWellFormed(f: Field) {
    -0x8000 <= f.id < 0x8000 && WellFormed(f.wire)
  }

  predicate FieldsWellFormed(fs: seq<Field>) {
    fs == [] || (FieldWellFormed(fs[0]) && FieldsWellFormed(fs[1..]))
  }

  predicate ItemsWellFormed(ws: seq<Wire>, a: byte, b: byte) {
    ws == [] || (WellFormed(ws[0]) && TypeOf(ws[0]) == a && ItemsWellFormed(ws[1..], b, a))
  }

  function SizeBytes(n: int): (b: seq<byte>)
    ensures |b| == 4
  {
    BigEndian(4, n)
  }

  function Encode(w: Wire): seq<byte> {
    match w
    case Fixed(_, raw) => raw
    case Text(text) => SizeBytes(|text|) + text
    case Struct(fields) => EncodeFields(fields) + [STOP]
    case Map(key, val, items) => [key] + ([val] + SizeBytes(|items| / 2) + EncodeItems(items))
    case Coll(_, elem, items) => [elem] + SizeBytes(|items|) + EncodeItems(items)
  }

  function EncodeField(f: Field): seq<byte> {
    [TypeOf(f.wire)] + BigEndian(2, f.id) + Encode(f.wire)
  }

  function EncodeFields(fs: seq<Field>): seq<byte> {
    if fs == [] then [] else EncodeField(fs[0]) + EncodeFields(fs[1..])
  }

  function EncodeItems(ws: seq<Wire>): seq<byte> {
    if ws == [] then [] else Encode(ws[0]) + EncodeItems(ws[1..])
  }

  // ------------------------------------------------- readers on well-formed bytes

  lemma IntAt(n: nat, x: int, buf: seq<byte>, off: nat)
    requires n > 0 && -Half(n) <= x < Half(n)
    requires At(buf, off, BigEndian(n, x))
    ensures ReadInt(n, buf, off) == Some(x)
  {
    SignedOfBigEndian(n, x);
  }

  lemma SizeAt(n: nat, buf: seq<byte>, off: nat)
    requires n < TWO31 && At(buf, off, SizeBytes(n))
    ensures ReadSize(buf, off) == Some(n)
  {
    Widths();
    IntAt(4, n, buf, off);
  }

  lemma StringAt(s: seq<byte>, buf: seq<byte>, off: nat)
    requires |s| < TWO31 && At(buf, off, SizeBytes(|s|) + s)
    ensures ReadString(buf, off) == Some((s, off + 4 + |s|))
  {
    AtSplit(buf, off, SizeBytes(|s|), s);
    SizeAt(|s|, buf, off);
  }

  lemma ListBeginAt(elem: byte, n: nat, body: seq<byte>, buf: seq<byte>, off: nat)
    requires n < TWO31 && At(buf, off, [elem] + SizeBytes(n) + body)
    ensures ReadListBegin(buf, off) == Some(ListHeader(elem, n, off + 5))
    ensures At(buf, off + 5, body)
  {
    AtSplit(buf, off, [elem] + SizeBytes(n), body);
    AtSplit(buf, off, [elem], SizeBytes(n));
    SizeAt(n, buf, off + 1);
  }

  lemma FieldBeginAt(f: Field, buf: seq<byte>, off: nat)
    requires FieldWellFormed(f) && At(buf, off, EncodeField(f))
    ensures ReadFieldBegin(buf, off) == Some(Header(TypeOf(f.wire), f.id, off + 3))
    ensures TypeOf(f.wire) != STOP
    ensures At(buf, off + 3, Encode(f.wire))
  {
    Widths();
    var ty, id := [TypeOf(f.wire)], BigEndian(2, f.id);
    AtSplit(buf, off, ty + id, Encode(f.wire));
    AtSplit(buf, off, ty, id);
    IntAt(2, f.id, buf, off + 1);
  }

  lemma StopAt(buf: seq<byte>, off: nat)
    requires At(buf, off, [STOP])
    ensures ReadFieldBegin(buf, off) == Some(Header(STOP, 0, off + 1))
  {
    assert buf[off] == buf[off..off + 1][0];
  }

  lemma FirstFieldAt(fs: seq<Field>, buf: seq<byte>, off: nat)
    requires fs != [] && At(buf, off, EncodeFields(fs) + [STOP])
    ensures At(buf, off, EncodeField(fs[0]))
    ensures At(buf, off + |EncodeField(fs[0])|, EncodeFields(fs[1..]) + [STOP])
  {
    assert EncodeFields(fs) + [STOP] == EncodeField(fs[0]) + (EncodeFields(fs[1..]) + [STOP]);
    AtSplit(buf, off, EncodeField(fs[0]), EncodeFields(fs[1..]) + [STOP]);
  }

  /** MAIN RESULT: skipping a well-formed value of any type ends right after its bytes. */
  lemma {:induction false} SkipsWellFormed(w: Wire, buf: seq<byte>, off: nat)
    requires WellFormed(w) && At(buf, off, Encode(w))
    ensures Skip(buf, off, TypeOf(w)) == Some(off + |Encode(w)|)
    decreases w
  {
    hide SkipFields, SkipItems, EncodeFields, EncodeItems, FieldsWellFormed, ItemsWellFormed, BigEndian;
    match w
    case Fixed(_, _) =>
    case Text(text) => StringAt(text, buf, off);
    case Struct(fields) => SkipsFields(fields, buf, off);
    case Map(key, val, items) =>
      AtSplit(buf, off, [key], [val] + SizeBytes(|items| / 2) + EncodeItems(items));
      ListBeginAt(val, |items| / 2, EncodeItems(items), buf, off + 1);
      SkipsItems(items, key, val, buf, off + 6);
    case Coll(_, elem, items) =>
      ListBeginAt(elem, |items|, EncodeItems(items), buf, off);
      SkipsItems(items, elem, elem, buf, off + 5);
  }

  lemma {:induction false} SkipsFields(fs: seq<Field>, buf: seq<byte>, off: nat)
    requires FieldsWellFormed(fs) && At(buf, off, EncodeFields(fs) + [STOP])
    ensures SkipFields(buf, off) == Some(off + |EncodeFields(fs)| + 1)
    decreases fs
  {
    hide SkipFields, EncodeField, FieldsWellFormed, FieldWellFormed;
    if fs == [] {
      assert [] + [STOP] == [STOP];
      StopSkips(buf, off);
    } else {
      FirstField(fs);
      FirstFieldAt(fs, buf, off);
      SkipsField(fs[0], buf, off);
      SkipsFields(fs[1..], buf, off + |EncodeField(fs[0])|);
    }
  }

  lemma FirstField(fs: seq<Field>)
    requires fs != [] && FieldsWellFormed(fs)
    ensures FieldWellFormed(fs[0]) && FieldsWellFormed(fs[1..])
  {
  }

  lemma StopSkips(buf: seq<byte>, off: nat)
    requires At(buf, off, [STOP])
    ensures SkipFields(buf, off) == Some(off + 1)
  {
    StopAt(buf, off);
  }

  lemma {:induction false} SkipsField(f: Field, buf: seq<byte>, off: nat)
    requires FieldWellFormed(f) && At(buf, off, EncodeField(f))
    ensures SkipFields(buf, off) == SkipFields(buf, off + |EncodeField(f)|)
    decreases f
  {
    FieldBeginAt(f, buf, off);
    SkipsWellFormed(f.wire, buf, off + 3);
  }

  lemma {:induction false} SkipsItems(ws: seq<Wire>, a: byte, b: byte, buf: seq<byte>, off: nat)
    requires ItemsWellFormed(ws, a, b) && At(buf, off, EncodeItems(ws))
    ensures SkipItems(buf, off, a, b, |ws|) == Some(off + |EncodeItems(ws)|)
    decreases ws
  {
    if ws != [] {
      AtSplit(buf, off, Encode(ws[0]), EncodeItems(ws[1..]));
      SkipsWellFormed(ws[0], buf, off);
      SkipsItems(ws[1..], b, a, buf, off + |Encode(ws[0])|);
    }
  }
}
