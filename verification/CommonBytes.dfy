/** The bytes of every record, written out: type codes, field ids, the order of the fields, and
    the digits of the integers (Apache Thrift binary protocol specification, sections "Struct"
    and "List and Set" and the base-type encodings). */
module CommonBytes {
  import opened Wrappers
  import opened ThriftBinary
  import opened CommonRecords
  import opened CommonFormat

  // ------------------------------------------------------------------- integers

  function Pow256(n: nat): (p: int)
    ensures p > 0
  {
    if n == 0 then 1 else 256 * Pow256(n - 1)
  }

  /** Digit i of n, most significant first; negative numbers as in two's complement. */
  function Digits(n: nat, x: int): (b: seq<byte>)
    ensures |b| == n
  {
    seq(n, i requires 0 <= i < n => (x / Pow256(n - 1 - i)) % 256)
  }

  lemma DivideTwice(x: int, p: int)
    requires p > 0
    ensures (x / 256) / p == x / (256 * p)
  {
    var q, r := x / (256 * p), x % (256 * p);
    assert x == 256 * p * q + r;
    assert x / 256 == p * q + r / 256 by { QuotientIs(x, 256, p * q + r / 256, r % 256); }
    assert 0 <= r / 256 < p;
    QuotientIs(x / 256, p, q, r / 256);
  }

  lemma QuotientIs(x: int, d: int, q: int, r: int)
    requires d > 0 && 0 <= r < d && x == d * q + r
    ensures x / d == q
  {
    var e := x / d - q;
    assert d * e == r - x % d;
  }

  /** Integers are written as their digits to base 256. */
  lemma {:induction false} BigEndianIsDigits(n: nat, x: int)
    ensures BigEndian(n, x) == Digits(n, x)
  {
    if n > 0 {
      BigEndianIsDigits(n - 1, x / 256);
      forall i | 0 <= i < n - 1 ensures BigEndian(n, x)[i] == Digits(n, x)[i] {
        DivideTwice(x, Pow256(n - 2 - i));
        assert BigEndian(n, x)[i] == Digits(n - 1, x / 256)[i];
        assert Pow256(n - 1 - i) == 256 * Pow256(n - 2 - i);
      }
      assert Pow256(0) == 1;
    }
  }

  lemma IdBytes(id: byte)
    ensures Digits(2, id) == [0, id]
  {
    assert Pow256(1) == 256 && Pow256(0) == 1;
  }

  /** The type codes, and the widths of the types that have one. */
  lemma TypeCodes(w: Wire)
    requires WellFormed(w)
    ensures match w
            case Fixed(ty, raw) =>
              ((ty == 2 || ty == 3) && |raw| == 1) || (ty == 6 && |raw| == 2) || (ty == 8 && |raw| == 4)
              || ((ty == 4 || ty == 10) && |raw| == 8)
            case Text(_) => TypeOf(w) == 11
            case Struct(_) => TypeOf(w) == 12
            case Map(_, _, _) => TypeOf(w) == 13
            case Coll(_, _, _) => TypeOf(w) == 14 || TypeOf(w) == 15
    ensures match w
            case Fixed(_, raw) => Encode(w) == raw
            case Text(text) => Encode(w) == Digits(4, |text|) + text
            case Struct(fields) => Encode(w) == EncodeFields(fields) + [0]
            case Map(key, val, items) => Encode(w) == [key] + ([val] + Digits(4, |items| / 2) + EncodeItems(items))
            case Coll(_, elem, items) => Encode(w) == [elem] + Digits(4, |items|) + EncodeItems(items)
  {
    match w
    case Text(text) => BigEndianIsDigits(4, |text|);
    case Map(_, _, items) => BigEndianIsDigits(4, |items| / 2);
    case Coll(_, _, items) => BigEndianIsDigits(4, |items|);
    case _ =>
    hide Digits, BigEndian, EncodeFields, EncodeItems;
  }

  // ---------------------------------------------------------------- fields, records

  function ByteField(id: byte, x: int): seq<byte> { [3, 0, id] + Digits(1, x) }
  function I16Field(id: byte, x: int): seq<byte> { [6, 0, id] + Digits(2, x) }
  function I64Field(id: byte, x: int): seq<byte> { [10, 0, id] + Digits(8, x) }
  function TextField(id: byte, s: seq<byte>): seq<byte> { [11, 0, id] + (Digits(4, |s|) + s) }
  function StructField(id: byte, body: seq<byte>): seq<byte> { [12, 0, id] + body }
  function IdsField(id: byte, ids: seq<i64>): seq<byte> { [15, 0, id] + ([10] + Digits(4, |ids|) + IdsBody(ids)) }
  function StatsField(id: byte, ss: seq<QuizStat>): seq<byte> { [15, 0, id] + ([12] + Digits(4, |ss|) + StatsBody(ss)) }

  function IdsBody(ids: seq<i64>): seq<byte> {
    if ids == [] then [] else Digits(8, ids[0]) + IdsBody(ids[1..])
  }

  function StatsBody(ss: seq<QuizStat>): seq<byte> {
    if ss == [] then [] else StatLayout(ss[0]) + StatsBody(ss[1..])
  }

  function OptText(id: byte, s: Option<Str>): seq<byte> {
    if s.None? then [] else TextField(id, s.value)
  }

  function StatLayout(q: QuizStat): seq<byte> {
    I64Field(2, q.count) + TextField(1, q.option) + [0]
  }

  function ChatLayout(c: Chat): seq<byte> {
    TextField(1, c.message) + [0]
  }

  function UserLayout(u: User): seq<byte> {
    I64Field(1, u.userID) + ByteField(4, u.status) + TextField(2, u.userName) + TextField(3, u.auth) + [0]
  }

  function LessonLayout(l: Lesson): seq<byte> {
    I64Field(1, l.lessonID) + I64Field(6, l.teacherID) + TextField(2, l.name) + TextField(3, l.teacherName)
    + TextField(4, l.description) + IdsField(5, l.studentID) + [0]
  }

  function QuizLayout(q: Quiz): seq<byte> {
    I64Field(1, q.quizID) + I64Field(2, q.lessonID) + ByteField(4, q.optionsNum) + I64Field(7, q.teacherID)
    + TextField(3, q.content) + TextField(5, q.options) + TextField(6, q.answer) + StatsField(8, q.stats) + [0]
  }

  function DataLayout(d: Data): seq<byte> {
    (if d.userInfo.Some? then StructField(1, UserLayout(d.userInfo.value)) else [])
    + (if d.lessonInfo.Some? then StructField(2, LessonLayout(d.lessonInfo.value)) else [])
    + (if d.quizInfo.Some? then StructField(3, QuizLayout(d.quizInfo.value)) else [])
    + (if d.chatInfo.Some? then StructField(4, ChatLayout(d.chatInfo.value)) else [])
    + OptText(10, d.sdp) + OptText(11, d.filename)
    + (if d.idList.Some? then IdsField(12, d.idList.value) else [])
    + OptText(13, d.text) + [0]
  }

  function RespLayout(r: Resp): seq<byte> {
    I16Field(1, r.code) + TextField(2, r.msg)
    + (if r.data.Some? then StructField(3, DataLayout(r.data.value)) else []) + [0]
  }

  function Layout(r: Record): seq<byte> {
    match r
    case RResp(p) => RespLayout(p)
    case RData(d) => DataLayout(d)
    case RUser(u) => UserLayout(u)
    case RLesson(l) => LessonLayout(l)
    case RQuiz(q) => QuizLayout(q)
    case RStat(q) => StatLayout(q)
    case RChat(c) => ChatLayout(c)
  }

  // ------------------------------------------------------------ one field, many fields

  function FieldBytes(r: Record, id: int): seq<byte> {
    EncodeFields(Written(r, id))
  }

  lemma FieldBytesAre(r: Record, id: byte)
    ensures FieldBytes(r, id) ==
      var v := Get(r, id);
      if v.None? then [] else [TypeOf(WireOf(v.value)), 0, id] + Encode(WireOf(v.value))
  {
    BigEndianIsDigits(2, id);
    IdBytes(id);
    var v := Get(r, id);
    hide Get, WireOf, BigEndian, Digits;
    if v.Some? {
      var f := Field(id, WireOf(v.value));
      assert [f][1..] == [];
      assert EncodeFields([f]) == EncodeField(f) + EncodeFields([]);
      assert EncodeFields([]) == [];
      assert [TypeOf(f.wire)] + [0, id] == [TypeOf(f.wire), 0, id];
    }
  }

  lemma OneMoreField(r: Record, ids: seq<int>, id: int, bytes: seq<byte>)
    requires EncodeFields(WrittenAll(r, ids)) == bytes
    ensures EncodeFields(WrittenAll(r, ids + [id])) == bytes + FieldBytes(r, id)
  {
    assert (ids + [id])[..|ids|] == ids;
    EncodeAppend(WrittenAll(r, ids), Written(r, id));
    hide Written, EncodeFields;
  }

  lemma NoFields(r: Record)
    ensures EncodeFields(WrittenAll(r, [])) == []
  {
  }

  // -------------------------------------------------------------------- field values

  lemma {:induction false} IdsBodyIs(ids: seq<i64>)
    ensures EncodeItems(IdWires(ids)) == IdsBody(ids)
  {
    if ids != [] {
      IdsBodyIs(ids[1..]);
      BigEndianIsDigits(8, ids[0]);
      hide BigEndian, Digits;
      assert IdWires(ids)[1..] == IdWires(ids[1..]);
      assert Encode(IdWires(ids)[0]) == Digits(8, ids[0]);
    }
  }

  lemma {:induction false} StatsBodyIs(ss: seq<QuizStat>)
    ensures EncodeItems(StatWires(ss)) == StatsBody(ss)
  {
    if ss != [] {
      StatsBodyIs(ss[1..]);
      StatBytes(ss[0]);
      hide StatLayout, FieldsOf, EncodeFields;
      assert StatWires(ss)[1..] == StatWires(ss[1..]);
      assert Encode(StatWires(ss)[0]) == Bytes(RStat(ss[0]));
    }
  }

  lemma TextIs(s: Str)
    ensures Encode(WireOf(VStr(s))) == Digits(4, |s|) + s
  {
    BigEndianIsDigits(4, |s|);
  }

  lemma IntsAre(v: Val)
    ensures v.VByte? ==> Encode(WireOf(v)) == Digits(1, v.b)
    ensures v.V16? ==> Encode(WireOf(v)) == Digits(2, v.h)
    ensures v.V64? ==> Encode(WireOf(v)) == Digits(8, v.n)
  {
    match v
    case VByte(b) => BigEndianIsDigits(1, b);
    case V16(h) => BigEndianIsDigits(2, h);
    case V64(n) => BigEndianIsDigits(8, n);
    case _ =>
  }

  lemma CollIs(elem: byte, items: seq<Wire>)
    ensures Encode(Coll(LIST, elem, items)) == [elem] + Digits(4, |items|) + EncodeItems(items)
  {
    BigEndianIsDigits(4, |items|);
  }

  lemma ListWires(v: Val)
    ensures v.VIds? ==> WireOf(v) == Coll(LIST, I64, IdWires(v.ids))
    ensures v.VStats? ==> WireOf(v) == Coll(LIST, STRUCT, StatWires(v.stats))
  {
  }

  lemma IdsAre(ids: Ids)
    ensures Encode(WireOf(VIds(ids))) == [10] + Digits(4, |ids|) + IdsBody(ids)
  {
    hide Encode, WireOf, IdWires, Digits, IdsBody, EncodeItems;
    ListWires(VIds(ids));
    CollIs(I64, IdWires(ids));
    IdsBodyIs(ids);
  }

  lemma StatsAre(ss: Stats)
    ensures Encode(WireOf(VStats(ss))) == [12] + Digits(4, |ss|) + StatsBody(ss)
  {
    hide Encode, WireOf, StatWires, Digits, StatsBody, EncodeItems;
    ListWires(VStats(ss));
    CollIs(STRUCT, StatWires(ss));
    StatsBodyIs(ss);
  }

  lemma StructIs(r: Record)
    ensures Encode(WireOf(VRec(r))) == Bytes(r)
  {
    hide FieldsOf, EncodeFields;
  }

  // ------------------------------------------------------------------ record by record

  lemma IntField(r: Record, id: byte, v: Val)
    requires Get(r, id) == Some(v)
    ensures v.VByte? ==> FieldBytes(r, id) == ByteField(id, v.b)
    ensures v.V16? ==> FieldBytes(r, id) == I16Field(id, v.h)
    ensures v.V64? ==> FieldBytes(r, id) == I64Field(id, v.n)
    ensures v.VStr? ==> FieldBytes(r, id) == TextField(id, v.s)
    ensures v.VIds? ==> FieldBytes(r, id) == IdsField(id, v.ids)
  {
    FieldBytesAre(r, id);
    IntsAre(v);
    if v.VStr? { TextIs(v.s); }
    if v.VIds? { IdsAre(v.ids); }
    hide FieldBytes, Get, Encode, Digits, IdsBody;
  }

  lemma RecField(r: Record, id: byte, nested: Record)
    requires Get(r, id) == Some(VRec(nested))
    ensures FieldBytes(r, id) == StructField(id, Bytes(nested))
  {
    FieldBytesAre(r, id);
    StructIs(nested);
    hide FieldBytes, Get, Encode, Bytes;
  }

  lemma UnsetField(r: Record, id: byte)
    requires Get(r, id).None?
    ensures FieldBytes(r, id) == []
  {
    FieldBytesAre(r, id);
  }

  /** Its fields in writing order, and STOP. */
  lemma BytesOfFields(r: Record)
    ensures Bytes(r) == EncodeFields(WrittenAll(r, Order(KindOf(r)))) + [0]
  {
    hide WrittenAll, EncodeFields, Order;
  }

  lemma OneField(r: Record, a: int)
    ensures EncodeFields(WrittenAll(r, [a])) == FieldBytes(r, a)
  {
    hide FieldBytes, WrittenAll, EncodeFields;
    NoFields(r);
    OneMoreField(r, [], a, []);
    assert [] + [a] == [a] && [] + FieldBytes(r, a) == FieldBytes(r, a);
  }

  lemma TwoFields(r: Record, a: int, b: int)
    ensures EncodeFields(WrittenAll(r, [a, b])) == FieldBytes(r, a) + FieldBytes(r, b)
  {
    hide FieldBytes, WrittenAll, EncodeFields;
    OneField(r, a);
    OneMoreField(r, [a], b, FieldBytes(r, a));
    assert [a] + [b] == [a, b];
  }

  lemma ThreeFields(r: Record, a: int, b: int, c: int)
    ensures EncodeFields(WrittenAll(r, [a, b, c])) == FieldBytes(r, a) + FieldBytes(r, b) + FieldBytes(r, c)
  {
    hide FieldBytes, WrittenAll, EncodeFields;
    TwoFields(r, a, b);
    OneMoreField(r, [a, b], c, FieldBytes(r, a) + FieldBytes(r, b));
    assert [a, b] + [c] == [a, b, c];
  }

  lemma ChatBytes(c: Chat)
    ensures Bytes(RChat(c)) == ChatLayout(c)
  {
    hide Bytes, FieldBytes, TextField, WrittenAll, EncodeFields;
    var r := RChat(c);
    BytesOfFields(r);
    IntField(r, 1, VStr(c.message));
    OneField(r, 1);
  }

  lemma StatBytes(q: QuizStat)
    ensures Bytes(RStat(q)) == StatLayout(q)
  {
    hide Bytes, FieldBytes, TextField, I64Field, WrittenAll, EncodeFields;
    var r := RStat(q);
    BytesOfFields(r);
    IntField(r, 1, VStr(q.option));
    IntField(r, 2, V64(q.count));
    TwoFields(r, 2, 1);
  }

  lemma UserBytes(u: User)
    ensures Bytes(RUser(u)) == UserLayout(u)
  {
    hide Bytes, FieldBytes, TextField, I64Field, ByteField, WrittenAll, EncodeFields;
    var r := RUser(u);
    BytesOfFields(r);
    IntField(r, 1, V64(u.userID));
    IntField(r, 4, VByte(u.status));
    IntField(r, 2, VStr(u.userName));
    IntField(r, 3, VStr(u.auth));
    FourFields(r, 1, 4, 2, 3);
  }

  lemma FourFields(r: Record, a: int, b: int, c: int, d: int)
    ensures EncodeFields(WrittenAll(r, [a, b, c, d])) ==
            FieldBytes(r, a) + FieldBytes(r, b) + FieldBytes(r, c) + FieldBytes(r, d)
  {
    hide FieldBytes, WrittenAll, EncodeFields;
    ThreeFields(r, a, b, c);
    OneMoreField(r, [a, b, c], d, FieldBytes(r, a) + FieldBytes(r, b) + FieldBytes(r, c));
    assert [a, b, c] + [d] == [a, b, c, d];
  }

  lemma SixFields(r: Record, a: int, b: int, c: int, d: int, e: int, f: int)
    ensures EncodeFields(WrittenAll(r, [a, b, c, d, e, f])) ==
            FieldBytes(r, a) + FieldBytes(r, b) + FieldBytes(r, c) + FieldBytes(r, d) + FieldBytes(r, e) + FieldBytes(r, f)
  {
    hide FieldBytes, WrittenAll, EncodeFields;
    FourFields(r, a, b, c, d);
    var four := FieldBytes(r, a) + FieldBytes(r, b) + FieldBytes(r, c) + FieldBytes(r, d);
    OneMoreField(r, [a, b, c, d], e, four);
    assert [a, b, c, d] + [e] == [a, b, c, d, e];
    OneMoreField(r, [a, b, c, d, e], f, four + FieldBytes(r, e));
    assert [a, b, c, d, e] + [f] == [a, b, c, d, e, f];
  }

  lemma EightFields(r: Record, a: int, b: int, c: int, d: int, e: int, f: int, g: int, h: int)
    ensures EncodeFields(WrittenAll(r, [a, b, c, d, e, f, g, h])) ==
            FieldBytes(r, a) + FieldBytes(r, b) + FieldBytes(r, c) + FieldBytes(r, d) + FieldBytes(r, e) + FieldBytes(r, f)
            + FieldBytes(r, g) + FieldBytes(r, h)
  {
    hide FieldBytes, WrittenAll, EncodeFields;
    SixFields(r, a, b, c, d, e, f);
    var six := FieldBytes(r, a) + FieldBytes(r, b) + FieldBytes(r, c) + FieldBytes(r, d) + FieldBytes(r, e) + FieldBytes(r, f);
    OneMoreField(r, [a, b, c, d, e, f], g, six);
    assert [a, b, c, d, e, f] + [g] == [a, b, c, d, e, f, g];
    OneMoreField(r, [a, b, c, d, e, f, g], h, six + FieldBytes(r, g));
    assert [a, b, c, d, e, f, g] + [h] == [a, b, c, d, e, f, g, h];
  }

  lemma LessonBytes(l: Lesson)
    ensures Bytes(RLesson(l)) == LessonLayout(l)
  {
    hide Bytes, FieldBytes, TextField, I64Field, IdsField, WrittenAll, EncodeFields;
    var r := RLesson(l);
    BytesOfFields(r);
    IntField(r, 1, V64(l.lessonID));
    IntField(r, 6, V64(l.teacherID));
    IntField(r, 2, VStr(l.name));
    IntField(r, 3, VStr(l.teacherName));
    IntField(r, 4, VStr(l.description));
    IntField(r, 5, VIds(l.studentID));
    SixFields(r, 1, 6, 2, 3, 4, 5);
  }

  lemma StatsFieldIs(r: Record, id: byte, ss: Stats)
    requires Get(r, id) == Some(VStats(ss))
    ensures FieldBytes(r, id) == StatsField(id, ss)
  {
    hide FieldBytes, Get, Encode, Digits, StatsBody;
    FieldBytesAre(r, id);
    ListWires(VStats(ss));
    StatsAre(ss);
    hide WireOf;
  }

  lemma QuizBytes(q: Quiz)
    ensures Bytes(RQuiz(q)) == QuizLayout(q)
  {
    hide Bytes, FieldBytes, TextField, I64Field, ByteField, StatsField, WrittenAll, EncodeFields;
    var r := RQuiz(q);
    BytesOfFields(r);
    IntField(r, 1, V64(q.quizID));
    IntField(r, 2, V64(q.lessonID));
    IntField(r, 4, VByte(q.optionsNum));
    IntField(r, 7, V64(q.teacherID));
    IntField(r, 3, VStr(q.content));
    IntField(r, 5, VStr(q.options));
    IntField(r, 6, VStr(q.answer));
    StatsFieldIs(r, 8, q.stats);
    EightFields(r, 1, 2, 4, 7, 3, 5, 6, 8);
  }

  /** A field of the union, set or not. */
  lemma TextOrNot(r: Record, id: byte, s: Option<Str>)
    requires Get(r, id) == OptStr(s)
    ensures FieldBytes(r, id) == OptText(id, s)
  {
    hide FieldBytes, Get, TextField;
    if s.None? { UnsetField(r, id); } else { IntField(r, id, VStr(s.value)); }
  }

  lemma RecordOrNot(r: Record, id: byte, nested: Option<Record>)
    requires Get(r, id) == if nested.Some? then Some(VRec(nested.value)) else None
    ensures FieldBytes(r, id) == if nested.Some? then StructField(id, Bytes(nested.value)) else []
  {
    hide FieldBytes, Get, StructField, Bytes;
    if nested.None? { UnsetField(r, id); } else { RecField(r, id, nested.value); }
  }

  lemma DataBytes(d: Data)
    ensures Bytes(RData(d)) == DataLayout(d)
  {
    hide Bytes, FieldBytes, TextField, StructField, IdsField, UserLayout, LessonLayout, QuizLayout, ChatLayout, OptText,
         WrittenAll, EncodeFields;
    var r := RData(d);
    BytesOfFields(r);
    UnionStructs(d);
    UnionTexts(d);
    EightFields(r, 1, 2, 3, 4, 10, 11, 12, 13);
  }

  lemma UnionStructs(d: Data)
    ensures var r := RData(d);
            && FieldBytes(r, 1) == (if d.userInfo.Some? then StructField(1, UserLayout(d.userInfo.value)) else [])
            && FieldBytes(r, 2) == (if d.lessonInfo.Some? then StructField(2, LessonLayout(d.lessonInfo.value)) else [])
            && FieldBytes(r, 3) == (if d.quizInfo.Some? then StructField(3, QuizLayout(d.quizInfo.value)) else [])
            && FieldBytes(r, 4) == (if d.chatInfo.Some? then StructField(4, ChatLayout(d.chatInfo.value)) else [])
  {
    hide FieldBytes, Bytes, StructField, UserLayout, LessonLayout, QuizLayout, ChatLayout;
    var r := RData(d);
    RecordOrNot(r, 1, if d.userInfo.Some? then Some(RUser(d.userInfo.value)) else None);
    if d.userInfo.Some? { UserBytes(d.userInfo.value); }
    RecordOrNot(r, 2, if d.lessonInfo.Some? then Some(RLesson(d.lessonInfo.value)) else None);
    if d.lessonInfo.Some? { LessonBytes(d.lessonInfo.value); }
    RecordOrNot(r, 3, if d.quizInfo.Some? then Some(RQuiz(d.quizInfo.value)) else None);
    if d.quizInfo.Some? { QuizBytes(d.quizInfo.value); }
    RecordOrNot(r, 4, if d.chatInfo.Some? then Some(RChat(d.chatInfo.value)) else None);
    if d.chatInfo.Some? { ChatBytes(d.chatInfo.value); }
  }

  lemma UnionTexts(d: Data)
    ensures var r := RData(d);
            && FieldBytes(r, 10) == OptText(10, d.sdp) && FieldBytes(r, 11) == OptText(11, d.filename)
            && FieldBytes(r, 12) == (if d.idList.Some? then IdsField(12, d.idList.value) else [])
            && FieldBytes(r, 13) == OptText(13, d.text)
  {
    hide FieldBytes, OptText, IdsField;
    var r := RData(d);
    TextOrNot(r, 10, d.sdp);
    TextOrNot(r, 11, d.filename);
    if d.idList.Some? { IntField(r, 12, VIds(d.idList.value)); } else { UnsetField(r, 12); }
    TextOrNot(r, 13, d.text);
  }

  lemma RespBytes(p: Resp)
    ensures Bytes(RResp(p)) == RespLayout(p)
  {
    hide FieldBytes, Bytes, DataLayout, StructField, TextField, I16Field, WrittenAll, EncodeFields;
    var r := RResp(p);
    IntField(r, 1, V16(p.code));
    IntField(r, 2, VStr(p.msg));
    RecordOrNot(r, 3, if p.data.Some? then Some(RData(p.data.value)) else None);
    if p.data.Some? { DataBytes(p.data.value); }
    ThreeFields(r, 1, 2, 3);
    BytesOfFields(r);
  }

  /** MAIN RESULT: the bytes written for every record. */
  lemma BytesAreLayout(r: Record)
    ensures Bytes(r) == Layout(r)
  {
    hide Bytes, RespLayout, DataLayout, UserLayout, LessonLayout, QuizLayout, StatLayout, ChatLayout;
    match r
    case RResp(p) => RespBytes(p);
    case RData(d) => DataBytes(d);
    case RUser(u) => UserBytes(u);
    case RLesson(l) => LessonBytes(l);
    case RQuiz(q) => QuizBytes(q);
    case RStat(q) => StatBytes(q);
    case RChat(c) => ChatBytes(c);
  }
}
