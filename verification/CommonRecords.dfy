/** The records of idl/common.thrift as the generated code treats them
    (idl/kitex_gen/common/k-common.go): which fields a record has, in which order they are
    written, how a record is read field by field, and what any well-formed bytes mean. */
module CommonRecords {
  import opened Wrappers
  import opened ThriftBinary

  type i8 = x: int | -0x80 <= x < 0x80
  type i16 = x: int | -0x8000 <= x < 0x8000
  type i64 = x: int | -0x8000_0000_0000_0000 <= x < 0x8000_0000_0000_0000
  type Str = s: seq<byte> | |s| < TWO31
  type Ids = s: seq<i64> | |s| < TWO31
  type Stats = s: seq<QuizStat> | |s| < TWO31

  datatype User = User(userID: i64, userName: Str, auth: Str, status: i8)
  datatype Lesson = Lesson(
    lessonID: i64, name: Str, teacherName: Str, description: Str, studentID: Ids, teacherID: i64)
  datatype QuizStat = QuizStat(option: Str, count: i64)
  datatype Quiz = Quiz(
    quizID: i64, lessonID: i64, content: Str, optionsNum: i8, options: Str, answer: Str, teacherID: i64, stats: Stats)
  datatype Chat = Chat(message: Str)
  datatype Data = Data(
    userInfo: Option<User>, lessonInfo: Option<Lesson>, quizInfo: Option<Quiz>, chatInfo: Option<Chat>,
    sdp: Option<Str>, filename: Option<Str>, idList: Option<Ids>, text: Option<Str>)
  datatype Resp = Resp(code: i16, msg: Str, data: Option<Data>)

  datatype Record =
    | RResp(resp: Resp) | RData(data: Data) | RUser(user: User) | RLesson(lesson: Lesson)
    | RQuiz(quiz: Quiz) | RStat(stat: QuizStat) | RChat(chat: Chat)

  datatype Kind = KResp | KData | KUser | KLesson | KQuiz | KStat | KChat

  /** The value of a field, and its declared type. */
  datatype Val = VByte(b: i8) | V16(h: i16) | V64(n: i64) | VStr(s: Str) | VIds(ids: Ids) | VStats(stats: Stats) | VRec(rec: Record)
  datatype Shape = ByteS | I16S | I64S | StrS | IdsS | StatsS | RecS(kind: Kind)

  // --------------------------------------------------------------------- the schema

  function KindOf(r: Record): Kind {
    match r
    case RResp(_) => KResp
    case RData(_) => KData
    case RUser(_) => KUser
    case RLesson(_) => KLesson
    case RQuiz(_) => KQuiz
    case RStat(_) => KStat
    case RChat(_) => KChat
  }

  function ShapeOf(v: Val): Shape {
    match v
    case VByte(_) => ByteS
    case V16(_) => I16S
    case V64(_) => I64S
    case VStr(_) => StrS
    case VIds(_) => IdsS
    case VStats(_) => StatsS
    case VRec(r) => RecS(KindOf(r))
  }

  function TypeOfShape(s: Shape): byte {
    match s
    case ByteS => BYTE
    case I16S => I16
    case I64S => I64
    case StrS => STRING
    case IdsS => LIST
    case StatsS => LIST
    case RecS(_) => STRUCT
  }

  /** The declared type of a field, by the reader's switch. */
  function Schema(k: Kind, id: int): Option<Shape> {
    match k
    case KResp => if id == 1 then Some(I16S) else if id == 2 then Some(StrS) else if id == 3 then Some(RecS(KData)) else None
    case KUser => if id == 1 then Some(I64S) else if id == 2 || id == 3 then Some(StrS) else if id == 4 then Some(ByteS) else None
    case KLesson =>
      if id == 1 || id == 6 then Some(I64S) else if id == 2 || id == 3 || id == 4 then Some(StrS)
      else if id == 5 then Some(IdsS) else None
    case KQuiz =>
      if id == 1 || id == 2 || id == 7 then Some(I64S) else if id == 3 || id == 5 || id == 6 then Some(StrS)
      else if id == 4 then Some(ByteS) else if id == 8 then Some(StatsS) else None
    case KStat => if id == 1 then Some(StrS) else if id == 2 then Some(I64S) else None
    case KChat => if id == 1 then Some(StrS) else None
    case KData =>
      if id == 1 then Some(RecS(KUser)) else if id == 2 then Some(RecS(KLesson)) else if id == 3 then Some(RecS(KQuiz))
      else if id == 4 then Some(RecS(KChat)) else if id == 10 || id == 11 || id == 13 then Some(StrS)
      else if id == 12 then Some(IdsS) else None
  }

  /** The order in which the fields are written. */
  function Order(k: Kind): seq<int> {
    match k
    case KResp => [1, 2, 3]
    case KUser => [1, 4, 2, 3]
    case KLesson => [1, 6, 2, 3, 4, 5]
    case KQuiz => [1, 2, 4, 7, 3, 5, 6, 8]
    case KStat => [2, 1]
    case KChat => [1]
    case KData => [1, 2, 3, 4, 10, 11, 12, 13]
  }

  function Empty(k: Kind): (r: Record)
    ensures KindOf(r) == k
  {
    match k
    case KResp => RResp(Resp(0, [], None))
    case KUser => RUser(User(0, [], [], 0))
    case KLesson => RLesson(Lesson(0, [], [], [], [], 0))
    case KQuiz => RQuiz(Quiz(0, 0, [], 0, [], [], 0, []))
    case KStat => RStat(QuizStat([], 0))
    case KChat => RChat(Chat([]))
    case KData => RData(Data(None, None, None, None, None, None, None, None))
  }

  /** How deeply records of a kind nest. */
  function Depth(k: Kind): nat {
    match k
    case KResp => 3
    case KData => 2
    case KQuiz => 1
    case _ => 0
  }

  function DepthOfShape(s: Shape): nat {
    match s
    case RecS(k) => Depth(k) + 1
    case StatsS => 1
    case _ => 0
  }

  /** How many fields of the union are set; the writer insists on exactly one. */
  function CountSetFields(d: Data): nat {
    (if d.userInfo.Some? then 1 else 0) + (if d.lessonInfo.Some? then 1 else 0) + (if d.quizInfo.Some? then 1 else 0)
    + (if d.chatInfo.Some? then 1 else 0) + (if d.sdp.Some? then 1 else 0) + (if d.filename.Some? then 1 else 0)
    + (if d.idList.Some? then 1 else 0) + (if d.text.Some? then 1 else 0)
  }

  predicate Encodable(r: Record) {
    match r
    case RData(d) => CountSetFields(d) == 1
    case RResp(p) => p.data.Some? ==> CountSetFields(p.data.value) == 1
    case _ => true
  }

  function OptStr(s: Option<Str>): Option<Val> { if s.None? then None else Some(VStr(s.value)) }

  /** The field with this id; unset optional fields and unknown ids give None. */
  function Get(r: Record, id: int): (v: Option<Val>) {
    match r
    case RResp(p) =>
      if id == 1 then Some(V16(p.code)) else if id == 2 then Some(VStr(p.msg))
      else if id == 3 && p.data.Some? then Some(VRec(RData(p.data.value))) else None
    case RUser(p) =>
      if id == 1 then Some(V64(p.userID)) else if id == 2 then Some(VStr(p.userName))
      else if id == 3 then Some(VStr(p.auth)) else if id == 4 then Some(VByte(p.status)) else None
    case RLesson(p) =>
      if id == 1 then Some(V64(p.lessonID)) else if id == 2 then Some(VStr(p.name))
      else if id == 3 then Some(VStr(p.teacherName)) else if id == 4 then Some(VStr(p.description))
      else if id == 5 then Some(VIds(p.studentID)) else if id == 6 then Some(V64(p.teacherID)) else None
    case RQuiz(p) =>
      if id == 1 then Some(V64(p.quizID)) else if id == 2 then Some(V64(p.lessonID))
      else if id == 3 then Some(VStr(p.content)) else if id == 4 then Some(VByte(p.optionsNum))
      else if id == 5 then Some(VStr(p.options)) else if id == 6 then Some(VStr(p.answer))
      else if id == 7 then Some(V64(p.teacherID)) else if id == 8 then Some(VStats(p.stats)) else None
    case RStat(p) =>
      if id == 1 then Some(VStr(p.option)) else if id == 2 then Some(V64(p.count)) else None
    case RChat(p) => if id == 1 then Some(VStr(p.message)) else None
    case RData(p) =>
      if id == 1 && p.userInfo.Some? then Some(VRec(RUser(p.userInfo.value)))
      else if id == 2 && p.lessonInfo.Some? then Some(VRec(RLesson(p.lessonInfo.value)))
      else if id == 3 && p.quizInfo.Some? then Some(VRec(RQuiz(p.quizInfo.value)))
      else if id == 4 && p.chatInfo.Some? then Some(VRec(RChat(p.chatInfo.value)))
      else if id == 10 then OptStr(p.sdp) else if id == 11 then OptStr(p.filename)
      else if id == 12 && p.idList.Some? then Some(VIds(p.idList.value))
      else if id == 13 then OptStr(p.text) else None
  }

  /** The record with one field assigned. */
  function Set(r: Record, id: int, v: Val): (t: Record)
    requires Schema(KindOf(r), id) == Some(ShapeOf(v))
  {
    match r
    case RResp(p) =>
      if id == 1 then RResp(p.(code := v.h)) else if id == 2 then RResp(p.(msg := v.s))
      else RResp(p.(data := Some(v.rec.data)))
    case RUser(p) =>
      if id == 1 then RUser(p.(userID := v.n)) else if id == 2 then RUser(p.(userName := v.s))
      else if id == 3 then RUser(p.(auth := v.s)) else RUser(p.(status := v.b))
    case RLesson(p) =>
      if id == 1 then RLesson(p.(lessonID := v.n)) else if id == 2 then RLesson(p.(name := v.s))
      else if id == 3 then RLesson(p.(teacherName := v.s)) else if id == 4 then RLesson(p.(description := v.s))
      else if id == 5 then RLesson(p.(studentID := v.ids)) else RLesson(p.(teacherID := v.n))
    case RQuiz(p) =>
      if id == 1 then RQuiz(p.(quizID := v.n)) else if id == 2 then RQuiz(p.(lessonID := v.n))
      else if id == 3 then RQuiz(p.(content := v.s)) else if id == 4 then RQuiz(p.(optionsNum := v.b))
      else if id == 5 then RQuiz(p.(options := v.s)) else if id == 6 then RQuiz(p.(answer := v.s))
      else if id == 7 then RQuiz(p.(teacherID := v.n)) else RQuiz(p.(stats := v.stats))
    case RStat(p) => if id == 1 then RStat(p.(option := v.s)) else RStat(p.(count := v.n))
    case RChat(p) => RChat(p.(message := v.s))
    case RData(p) =>
      if id == 1 then RData(p.(userInfo := Some(v.rec.user))) else if id == 2 then RData(p.(lessonInfo := Some(v.rec.lesson)))
      else if id == 3 then RData(p.(quizInfo := Some(v.rec.quiz))) else if id == 4 then RData(p.(chatInfo := Some(v.rec.chat)))
      else if id == 10 then RData(p.(sdp := Some(v.s))) else if id == 11 then RData(p.(filename := Some(v.s)))
      else if id == 12 then RData(p.(idList := Some(v.ids))) else RData(p.(text := Some(v.s)))
  }

  // ------------------------------------------------------------- laws of the schema

  lemma SetKeepsKind(r: Record, id: int, v: Val)
    requires Schema(KindOf(r), id) == Some(ShapeOf(v))
    ensures KindOf(Set(r, id, v)) == KindOf(r)
  {
  }

  lemma GetAfterSet(r: Record, id: int, v: Val, j: int)
    requires Schema(KindOf(r), id) == Some(ShapeOf(v))
    ensures Get(Set(r, id, v), j) == if j == id then Some(v) else Get(r, j)
  {
    match r
    case RResp(_) =>
    case RUser(_) =>
    case RLesson(_) =>
    case RQuiz(_) =>
    case RStat(_) =>
    case RChat(_) =>
    case RData(_) =>
  }

  lemma GetIsDeclared(r: Record, id: int)
    ensures Get(r, id).Some? ==> Schema(KindOf(r), id) == Some(ShapeOf(Get(r, id).value))
    ensures Get(r, id).None? ==> Get(Empty(KindOf(r)), id).None?
    ensures Get(r, id).Some? ==> DepthOfShape(ShapeOf(Get(r, id).value)) <= Depth(KindOf(r))
  {
  }

  lemma OrderIsSchema(k: Kind, id: int)
    ensures id in Order(k) <==> Schema(k, id).Some?
    ensures id in Order(k) ==> 1 <= id <= 13
  {
  }

  ghost predicate SameFields(a: Record, b: Record) {
    forall id :: Get(a, id) == Get(b, id)
  }

  lemma FieldsDetermine(a: Record, b: Record)
    requires KindOf(a) == KindOf(b) && SameFields(a, b)
    ensures a == b
  {
    if a.RData? {
      UnionDetermined(a, b);
    } else {
      assert Get(a, 1) == Get(b, 1) && Get(a, 2) == Get(b, 2) && Get(a, 3) == Get(b, 3) && Get(a, 4) == Get(b, 4);
      assert Get(a, 5) == Get(b, 5) && Get(a, 6) == Get(b, 6) && Get(a, 7) == Get(b, 7) && Get(a, 8) == Get(b, 8);
    }
  }

  lemma UnionDetermined(a: Record, b: Record)
    requires a.RData? && b.RData? && SameFields(a, b)
    ensures a == b
  {
    assert Get(a, 1) == Get(b, 1) && Get(a, 2) == Get(b, 2) && Get(a, 3) == Get(b, 3) && Get(a, 4) == Get(b, 4);
    assert Get(a, 10) == Get(b, 10) && Get(a, 11) == Get(b, 11) && Get(a, 12) == Get(b, 12) && Get(a, 13) == Get(b, 13);
  }
}
