/** The structs that hold other structs: a quiz with its statistics, the union, and the response
    (idl/kitex_gen/common/k-common.go). A field header takes 3 bytes, a string length 4, a list
    header 5. */
module NestedStructs {
  import opened Wrappers
  import opened ThriftBinary
  import opened ThriftWriter
  import R = CommonRecords
  import opened CommonReader
  import opened CommonFormat
  import opened CommonWriter
  import opened FlatStructs

  type StatRefs = s: seq<QuizStat> | |s| < TWO31

  function Views(stats: seq<QuizStat>): (vs: seq<R.QuizStat>)
    reads stats
    ensures |vs| == |stats| && forall i :: 0 <= i < |stats| ==> vs[i] == stats[i].View()
  {
    seq(|stats|, i requires 0 <= i < |stats| reads stats => stats[i].View())
  }

  lemma NextStat(done: seq<R.QuizStat>, n: nat, x: R.QuizStat, buf: seq<byte>, off: nat, next: nat)
    requires n > 0 && off <= |buf| && ReadRecord(R.Empty(R.KStat), buf, off) == (R.RStat(x), Some(next))
    ensures After(done, ReadStats(n, buf, off)) == After(done + [x], ReadStats(n - 1, buf, next))
  {
    hide ReadRecord;
    var rest := ReadStats(n - 1, buf, next);
    if rest.Some? { assert done + ([x] + rest.value.0) == (done + [x]) + rest.value.0; }
  }

  lemma NoStat(done: seq<R.QuizStat>, n: nat, buf: seq<byte>, off: nat)
    requires n > 0 && off <= |buf| && ReadRecord(R.Empty(R.KStat), buf, off).1.None?
    ensures After(done, ReadStats(n, buf, off)).None?
  {
    hide ReadRecord;
  }

  /** The list of statistics at an offset, each read into a new struct. */
  method ReadStatList(buf: seq<byte>, off: nat) returns (xs: StatRefs, end: Option<nat>)
    ensures fresh(xs)
    ensures ReadVal(R.StatsS, buf, off) == if end.None? then None else Some(Got(R.VStats(Views(xs)), end.value))
  {
    hide ReadRecord, ReadVal, ReadStats, ReadListBegin, After;
    xs := [];
    var h := ReadListBegin(buf, off);
    if h.None? {
      NoList(buf, off);
      return xs, None;
    }
    var size, offset: nat := h.value.size, h.value.next;
    ghost var whole := ReadStats(size, buf, offset);
    StatsVal(buf, off, whole);
    NothingRead(whole);
    for i := 0 to size
      invariant |xs| == i && offset <= |buf| && fresh(xs)
      invariant whole == After(Views(xs), ReadStats(size - i, buf, offset))
    {
      var elem := new QuizStat();
      var o := elem.FastRead(buf, offset);
      if o.None? {
        NoStat(Views(xs), size - i, buf, offset);
        return [], None;
      }
      NextStat(Views(xs), size - i, elem.View(), buf, offset, o.value);
      assert Views(xs + [elem]) == Views(xs) + [elem.View()];
      xs := xs + [elem];
      offset := o.value;
    }
    NoMoreStats(Views(xs), buf, offset);
    end := Some(offset);
  }

  lemma NoMoreStats(done: seq<R.QuizStat>, buf: seq<byte>, off: nat)
    requires off <= |buf|
    ensures After(done, ReadStats(0, buf, off)) == Some((done, off))
  {
    assert done + [] == done;
  }

  lemma ViewAt(stats: seq<QuizStat>, i: nat)
    requires i < |stats|
    ensures Views(stats)[..i + 1] == Views(stats)[..i] + [stats[i].View()]
  {
  }

  lemma {:induction false} SizeGrows(vs: seq<R.QuizStat>, i: nat)
    requires i <= |vs|
    ensures StatsSize(vs[..i]) <= StatsSize(vs)
  {
    hide Bytes;
    if i < |vs| {
      SizeGrows(vs[..|vs| - 1], i);
      assert vs[..|vs| - 1][..i] == vs[..i];
    } else {
      assert vs[..i] == vs;
    }
  }

  lemma SizeNext(vs: seq<R.QuizStat>, x: R.QuizStat)
    ensures StatsSize(vs + [x]) == StatsSize(vs) + |Bytes(R.RStat(x))|
  {
    assert (vs + [x])[..|vs|] == vs;
  }

  /** The elements of the list, behind the place of its header. */
  method WriteStatItems(buf: array<byte>, off: nat, stats: StatRefs) returns (next: nat)
    requires off + StatsSize(Views(stats)) <= buf.Length
    modifies buf
    ensures Wrote(old(buf[..]), buf[..], off, next, EncodeItems(StatWires(Views(stats))))
  {
    hide Bytes, StatsSize, StatWires, EncodeItems;
    ghost var vs, a := Views(stats), buf[..];
    assert vs[..0] == [];
    NoStats();
    NothingWrote(a, off);
    next := off;
    for i := 0 to |stats|
      invariant Wrote(a, buf[..], off, next, EncodeItems(StatWires(vs[..i])))
    {
      ghost var b, mid := buf[..], next;
      ViewAt(stats, i);
      SizeNext(vs[..i], stats[i].View());
      SizeGrows(vs, i + 1);
      StatsLength(vs[..i]);
      StatsSnoc(vs[..i], stats[i].View());
      next := stats[i].FastWrite(buf, next);
      WroteBoth(a, b, buf[..], off, mid, next, EncodeItems(StatWires(vs[..i])), Bytes(stats[i].Rec()));
    }
    assert vs[..|stats|] == vs;
  }

  /** The statistics' lengths, added up. */
  method StatsLengthOf(stats: StatRefs) returns (l: nat)
    ensures l == StatsSize(Views(stats))
  {
    hide Bytes;
    ghost var vs := Views(stats);
    l := 0;
    for i := 0 to |stats|
      invariant l == StatsSize(vs[..i])
    {
      var n := stats[i].BLength();
      ViewAt(stats, i);
      SizeNext(vs[..i], stats[i].View());
      l := l + n;
    }
    assert vs[..|stats|] == vs;
  }

  class Quiz {
    var quizID: R.i64
    var lessonID: R.i64
    var content: R.Str
    var optionsNum: R.i8
    var options: R.Str
    var answer: R.Str
    var teacherID: R.i64
    var stats: StatRefs

    constructor ()
      ensures Rec() == R.Empty(R.KQuiz)
      ensures fresh(this)
    {
      quizID, lessonID, content, optionsNum, options, answer, teacherID, stats := 0, 0, [], 0, [], [], 0, [];
    }

    function View(): R.Quiz
      reads this, stats
    {
      R.Quiz(quizID, lessonID, content, optionsNum, options, answer, teacherID, Views(stats))
    }

    function Rec(): R.Record
      reads this, stats
    {
      R.RQuiz(View())
    }

    method ReadOne(buf: seq<byte>, ty: byte, id: int, off: nat) returns (end: Option<nat>)
      modifies this
      ensures (Rec(), end) == ReadField(old(Rec()), ty, id, buf, off)
    {
      hide ReadField, ReadVal, ReadRecord, Skip;
      ghost var r := Rec();
      if id == 1 && ty == I64 {
        var x, o := ReadI64(buf, off);
        Assigned(r, ty, id, buf, off, R.V64(x), o);
        if o.Some? { quizID := x; }
        return o;
      }
      if id == 2 && ty == I64 {
        var x, o := ReadI64(buf, off);
        Assigned(r, ty, id, buf, off, R.V64(x), o);
        if o.Some? { lessonID := x; }
        return o;
      }
      if id == 3 && ty == STRING {
        var x, o := ReadStr(buf, off);
        Assigned(r, ty, id, buf, off, R.VStr(x), o);
        if o.Some? { content := x; }
        return o;
      }
      if id == 4 && ty == BYTE {
        var x, o := ReadByte(buf, off);
        Assigned(r, ty, id, buf, off, R.VByte(x), o);
        if o.Some? { optionsNum := x; }
        return o;
      }
      if id == 5 && ty == STRING {
        var x, o := ReadStr(buf, off);
        Assigned(r, ty, id, buf, off, R.VStr(x), o);
        if o.Some? { options := x; }
        return o;
      }
      if id == 6 && ty == STRING {
        var x, o := ReadStr(buf, off);
        Assigned(r, ty, id, buf, off, R.VStr(x), o);
        if o.Some? { answer := x; }
        return o;
      }
      if id == 7 && ty == I64 {
        var x, o := ReadI64(buf, off);
        Assigned(r, ty, id, buf, off, R.V64(x), o);
        if o.Some? { teacherID := x; }
        return o;
      }
      if id == 8 && ty == LIST {
        var x, o := ReadStatList(buf, off);
        Assigned(r, ty, id, buf, off, R.VStats(Views(x)), o);
        if o.Some? { stats := x; }
        return o;
      }
      Skipped(r, ty, id, buf, off);
      end := Skip(buf, off, ty);
    }

    method FastRead(buf: seq<byte>, start: nat) returns (end: Option<nat>)
      modifies this
      ensures (Rec(), end) == ReadRecord(old(Rec()), buf, start)
    {
      hide ReadField, ReadFieldBegin;
      ghost var goal := ReadRecord(Rec(), buf, start);
      var offset := start;
      while true
        invariant ReadRecord(Rec(), buf, offset) == goal
        decreases |buf| - offset
      {
        var h := ReadFieldBegin(buf, offset);
        if h.None? { return None; }
        if h.value.ty == STOP { return Some(h.value.next); }
        var o := ReadOne(buf, h.value.ty, h.value.id, h.value.next);
        if o.None? { return None; }
        offset := o.value;
      }
    }

    lemma Fields()
      ensures R.Get(Rec(), 1) == Some(R.V64(quizID)) && R.Get(Rec(), 2) == Some(R.V64(lessonID))
      ensures R.Get(Rec(), 3) == Some(R.VStr(content)) && R.Get(Rec(), 4) == Some(R.VByte(optionsNum))
      ensures R.Get(Rec(), 5) == Some(R.VStr(options)) && R.Get(Rec(), 6) == Some(R.VStr(answer))
      ensures R.Get(Rec(), 7) == Some(R.V64(teacherID)) && R.Get(Rec(), 8) == Some(R.VStats(Views(stats)))
    {
    }

    /** The list header is patched in after the elements. */
    method WriteStats(buf: array<byte>, off: nat, ghost r: R.Record, ghost b0: seq<byte>, ghost start: nat) returns (next: nat)
      requires R.Get(r, 8) == Some(R.VStats(Views(stats))) && Due(r, 7, 8, b0, buf[..], start, off)
      modifies buf
      ensures Progress(r, 8, b0, buf[..], start, next)
    {
      hide Progress, Wrote, FieldBytes, PieceBytes, EncodeItems, Bytes, StatWires, StatsSize, BigEndian, R.Order, R.Get;
      ghost var vs, a := Views(stats), buf[..];
      DueHasRoom(r, 7, 8, R.VStats(vs), b0, a, start, off);
      FieldLength(8, R.VStats(vs));
      var listBegin := WriteFieldBegin(buf, off, LIST, 8);
      ghost var b := buf[..];
      WroteEnds(a, b, off, listBegin, [LIST] + BigEndian(2, 8));
      next := WriteStatItems(buf, listBegin + 5, stats);
      ghost var c := buf[..];
      var mid := WriteListBegin(buf, listBegin, STRUCT, |stats|);
      WroteEnds(c, buf[..], listBegin, mid, [STRUCT] + SizeBytes(|stats|));
      StatsWrote(a, b, c, buf[..], off, listBegin, mid, next, 8, vs);
      Advanced(r, 7, b0, a, buf[..], start, off, next);
    }

    method WritePlain(buf: array<byte>, off: nat, ghost r: R.Record, ghost b: seq<byte>, ghost start: nat) returns (next: nat)
      requires R.Order(R.KindOf(r)) == [1, 2, 4, 7, 3, 5, 6, 8] && Progress(r, 0, b, buf[..], start, off)
      requires R.Get(r, 1) == Some(R.V64(quizID)) && R.Get(r, 2) == Some(R.V64(lessonID))
      requires R.Get(r, 3) == Some(R.VStr(content)) && R.Get(r, 4) == Some(R.VByte(optionsNum))
      requires R.Get(r, 5) == Some(R.VStr(options)) && R.Get(r, 6) == Some(R.VStr(answer))
      requires R.Get(r, 7) == Some(R.V64(teacherID))
      modifies buf
      ensures Progress(r, 7, b, buf[..], start, next)
    {
      hide Progress, R.Order, R.Get;
      next := EmitI64(buf, off, 1, quizID, r, 0, b, start);
      next := EmitI64(buf, next, 2, lessonID, r, 1, b, start);
      next := EmitByte(buf, next, 4, optionsNum, r, 2, b, start);
      next := EmitI64(buf, next, 7, teacherID, r, 3, b, start);
      next := EmitString(buf, next, 3, content, r, 4, b, start);
      next := EmitString(buf, next, 5, options, r, 5, b, start);
      next := EmitString(buf, next, 6, answer, r, 6, b, start);
    }

    method FastWrite(buf: array<byte>, start: nat) returns (next: nat)
      requires start + |Bytes(Rec())| <= buf.Length
      modifies buf
      ensures Wrote(old(buf[..]), buf[..], start, next, Bytes(Rec()))
    {
      hide Progress, Bytes, Wrote;
      ghost var r, b := Rec(), buf[..];
      assert R.Order(R.KindOf(r)) == [1, 2, 4, 7, 3, 5, 6, 8];
      Begun(r, b, start);
      Fields();
      hide R.Order, R.Get;
      next := WritePlain(buf, start, r, b, start);
      next := WriteStats(buf, next, r, b, start);
      next := EmitStop(buf, next, r, b, start);
    }

    method BLength() returns (l: nat)
      ensures l == |Bytes(Rec())|
    {
      hide Bytes, R.Get, StatsSize;
      LengthIsById(Rec());
      Fields();
      var n := StatsLengthOf(stats);
      l := 0;
      l := l + 3 + 8;
      l := l + 3 + 8;
      l := l + 3 + 4 + |content|;
      l := l + 3 + 1;
      l := l + 3 + 4 + |options|;
      l := l + 3 + 4 + |answer|;
      l := l + 3 + 8;
      l := l + 3 + 5 + n;
      l := l + 1;
    }
  }

  class Data {
    var userInfo: User?
    var lessonInfo: Lesson?
    var quizInfo: Quiz?
    var chatInfo: Chat?
    var sdp: Option<R.Str>
    var filename: Option<R.Str>
    var idList: Option<R.Ids>
    var text: Option<R.Str>

    constructor ()
      ensures Rec() == R.Empty(R.KData)
      ensures fresh(this)
    {
      userInfo, lessonInfo, quizInfo, chatInfo, sdp, filename, idList, text := null, null, null, null, None, None, None, None;
    }

    function Structs(): set<object?>
      reads this
    {
      {userInfo, lessonInfo, quizInfo, chatInfo}
    }

    function Elems(): seq<QuizStat>
      reads this, quizInfo
    {
      if quizInfo == null then [] else quizInfo.stats
    }

    function View(): R.Data
      reads this, userInfo, lessonInfo, quizInfo, chatInfo, Elems()
    {
      R.Data(
        if userInfo == null then None else Some(userInfo.View()),
        if lessonInfo == null then None else Some(lessonInfo.View()),
        if quizInfo == null then None else Some(quizInfo.View()),
        if chatInfo == null then None else Some(chatInfo.View()),
        sdp,
        filename,
        idList,
        text)
    }

    function Rec(): R.Record
      reads this, userInfo, lessonInfo, quizInfo, chatInfo, Elems()
    {
      R.RData(View())
    }

    function CountSetFields(): nat
      reads this
    {
      (if userInfo != null then 1 else 0) + (if lessonInfo != null then 1 else 0) + (if quizInfo != null then 1 else 0)
      + (if chatInfo != null then 1 else 0) + (if sdp.Some? then 1 else 0) + (if filename.Some? then 1 else 0)
      + (if idList.Some? then 1 else 0) + (if text.Some? then 1 else 0)
    }

    lemma Fields()
      ensures R.Get(Rec(), 1) == if userInfo == null then None else Some(R.VRec(userInfo.Rec()))
      ensures R.Get(Rec(), 2) == if lessonInfo == null then None else Some(R.VRec(lessonInfo.Rec()))
      ensures R.Get(Rec(), 3) == if quizInfo == null then None else Some(R.VRec(quizInfo.Rec()))
      ensures R.Get(Rec(), 4) == if chatInfo == null then None else Some(R.VRec(chatInfo.Rec()))
      ensures R.Get(Rec(), 10) == R.OptStr(sdp) && R.Get(Rec(), 11) == R.OptStr(filename) && R.Get(Rec(), 13) == R.OptStr(text)
      ensures R.Get(Rec(), 12) == if idList.None? then None else Some(R.VIds(idList.value))
    {
      hide User.View, Lesson.View, Quiz.View, Chat.View;
    }

    lemma CountIsView()
      ensures CountSetFields() == R.CountSetFields(View())
    {
      hide Quiz.View;
    }

    method ReadField1(buf: seq<byte>, off: nat) returns (end: Option<nat>)
      modifies this
      ensures (Rec(), end) == ReadField(old(Rec()), STRUCT, 1, buf, off)
    {
      hide ReadField, ReadVal, ReadRecord, R.Empty, User.View, Lesson.View, Quiz.View, Chat.View;
      var x := new User();
      end := x.FastRead(buf, off);
      NestedVal(R.KUser, x.Rec(), end, buf, off);
      Assigned(Rec(), STRUCT, 1, buf, off, R.VRec(x.Rec()), end);
      if end.Some? { userInfo := x; }
    }

    method ReadField2(buf: seq<byte>, off: nat) returns (end: Option<nat>)
      modifies this
      ensures (Rec(), end) == ReadField(old(Rec()), STRUCT, 2, buf, off)
    {
      hide ReadField, ReadVal, ReadRecord, R.Empty, User.View, Lesson.View, Quiz.View, Chat.View;
      var x := new Lesson();
      end := x.FastRead(buf, off);
      NestedVal(R.KLesson, x.Rec(), end, buf, off);
      Assigned(Rec(), STRUCT, 2, buf, off, R.VRec(x.Rec()), end);
      if end.Some? { lessonInfo := x; }
    }

    method ReadField3(buf: seq<byte>, off: nat) returns (end: Option<nat>)
      modifies this
      ensures (Rec(), end) == ReadField(old(Rec()), STRUCT, 3, buf, off)
    {
      hide ReadField, ReadVal, ReadRecord, R.Empty, User.View, Lesson.View, Quiz.View, Chat.View;
      var x := new Quiz();
      end := x.FastRead(buf, off);
      NestedVal(R.KQuiz, x.Rec(), end, buf, off);
      Assigned(Rec(), STRUCT, 3, buf, off, R.VRec(x.Rec()), end);
      if end.Some? { quizInfo := x; }
    }

    method ReadField4(buf: seq<byte>, off: nat) returns (end: Option<nat>)
      modifies this
      ensures (Rec(), end) == ReadField(old(Rec()), STRUCT, 4, buf, off)
    {
      hide ReadField, ReadVal, ReadRecord, R.Empty, User.View, Lesson.View, Quiz.View, Chat.View;
      var x := new Chat();
      end := x.FastRead(buf, off);
      NestedVal(R.KChat, x.Rec(), end, buf, off);
      Assigned(Rec(), STRUCT, 4, buf, off, R.VRec(x.Rec()), end);
      if end.Some? { chatInfo := x; }
    }

    method ReadField10(buf: seq<byte>, off: nat) returns (end: Option<nat>)
      modifies this
      ensures (Rec(), end) == ReadField(old(Rec()), STRING, 10, buf, off)
    {
      hide ReadField, ReadVal;
      var x;
      x, end := ReadStr(buf, off);
      Assigned(Rec(), STRING, 10, buf, off, R.VStr(x), end);
      if end.Some? { sdp := Some(x); }
    }

    method ReadField11(buf: seq<byte>, off: nat) returns (end: Option<nat>)
      modifies this
      ensures (Rec(), end) == ReadField(old(Rec()), STRING, 11, buf, off)
    {
      hide ReadField, ReadVal;
      var x;
      x, end := ReadStr(buf, off);
      Assigned(Rec(), STRING, 11, buf, off, R.VStr(x), end);
      if end.Some? { filename := Some(x); }
    }

    method ReadField12(buf: seq<byte>, off: nat) returns (end: Option<nat>)
      modifies this
      ensures (Rec(), end) == ReadField(old(Rec()), LIST, 12, buf, off)
    {
      hide ReadField, ReadVal;
      var x;
      x, end := ReadIdList(buf, off);
      Assigned(Rec(), LIST, 12, buf, off, R.VIds(x), end);
      if end.Some? { idList := Some(x); }
    }

    method ReadField13(buf: seq<byte>, off: nat) returns (end: Option<nat>)
      modifies this
      ensures (Rec(), end) == ReadField(old(Rec()), STRING, 13, buf, off)
    {
      hide ReadField, ReadVal;
      var x;
      x, end := ReadStr(buf, off);
      Assigned(Rec(), STRING, 13, buf, off, R.VStr(x), end);
      if end.Some? { text := Some(x); }
    }

    method ReadOne(buf: seq<byte>, ty: byte, id: int, off: nat) returns (end: Option<nat>)
      modifies this
      ensures (Rec(), end) == ReadField(old(Rec()), ty, id, buf, off)
    {
      hide ReadField, ReadVal, ReadRecord, Skip, Data.View;
      if ty == STRUCT {
        if id == 1 { end := ReadField1(buf, off); return; }
        if id == 2 { end := ReadField2(buf, off); return; }
        if id == 3 { end := ReadField3(buf, off); return; }
        if id == 4 { end := ReadField4(buf, off); return; }
      } else if ty == STRING {
        if id == 10 { end := ReadField10(buf, off); return; }
        if id == 11 { end := ReadField11(buf, off); return; }
        if id == 13 { end := ReadField13(buf, off); return; }
      } else if ty == LIST && id == 12 {
        end := ReadField12(buf, off);
        return;
      }
      Skipped(Rec(), ty, id, buf, off);
      end := Skip(buf, off, ty);
    }

    method FastRead(buf: seq<byte>, start: nat) returns (end: Option<nat>)
      modifies this
      ensures (Rec(), end) == ReadRecord(old(Rec()), buf, start)
    {
      hide ReadField, ReadFieldBegin;
      ghost var goal := ReadRecord(Rec(), buf, start);
      var offset := start;
      while true
        invariant ReadRecord(Rec(), buf, offset) == goal
        decreases |buf| - offset
      {
        var h := ReadFieldBegin(buf, offset);
        if h.None? { return None; }
        if h.value.ty == STOP { return Some(h.value.next); }
        var o := ReadOne(buf, h.value.ty, h.value.id, h.value.next);
        if o.None? { return None; }
        offset := o.value;
      }
    }

    method WriteField1(buf: array<byte>, off: nat, ghost r: R.Record, ghost b: seq<byte>, ghost start: nat) returns (next: nat)
      requires R.Get(r, 1) == if userInfo == null then None else Some(R.VRec(userInfo.Rec()))
      requires Due(r, 0, 1, b, buf[..], start, off)
      modifies buf
      ensures Progress(r, 1, b, buf[..], start, next)
    {
      hide Progress, Bytes, Wrote, R.Order, R.Get;
      ghost var c := buf[..];
      if userInfo == null {
        Passed(r, 0, 1, b, c, start, off);
        return off;
      }
      NestedDue(r, 0, 1, userInfo.Rec(), b, c, start, off);
      var mid := WriteFieldBegin(buf, off, STRUCT, 1);
      ghost var d := buf[..];
      next := userInfo.FastWrite(buf, mid);
      NestedDone(r, 0, 1, userInfo.Rec(), b, c, d, buf[..], start, off, mid, next);
    }

    method WriteField2(buf: array<byte>, off: nat, ghost r: R.Record, ghost b: seq<byte>, ghost start: nat) returns (next: nat)
      requires R.Get(r, 2) == if lessonInfo == null then None else Some(R.VRec(lessonInfo.Rec()))
      requires Due(r, 1, 2, b, buf[..], start, off)
      modifies buf
      ensures Progress(r, 2, b, buf[..], start, next)
    {
      hide Progress, Bytes, Wrote, R.Order, R.Get;
      ghost var c := buf[..];
      if lessonInfo == null {
        Passed(r, 1, 2, b, c, start, off);
        return off;
      }
      NestedDue(r, 1, 2, lessonInfo.Rec(), b, c, start, off);
      var mid := WriteFieldBegin(buf, off, STRUCT, 2);
      ghost var d := buf[..];
      next := lessonInfo.FastWrite(buf, mid);
      NestedDone(r, 1, 2, lessonInfo.Rec(), b, c, d, buf[..], start, off, mid, next);
    }

    method WriteField3(buf: array<byte>, off: nat, ghost r: R.Record, ghost b: seq<byte>, ghost start: nat) returns (next: nat)
      requires R.Get(r, 3) == if quizInfo == null then None else Some(R.VRec(quizInfo.Rec()))
      requires Due(r, 2, 3, b, buf[..], start, off)
      modifies buf
      ensures Progress(r, 3, b, buf[..], start, next)
    {
      hide Progress, Bytes, Wrote, R.Order, R.Get;
      ghost var c := buf[..];
      if quizInfo == null {
        Passed(r, 2, 3, b, c, start, off);
        return off;
      }
      NestedDue(r, 2, 3, quizInfo.Rec(), b, c, start, off);
      var mid := WriteFieldBegin(buf, off, STRUCT, 3);
      ghost var d := buf[..];
      next := quizInfo.FastWrite(buf, mid);
      NestedDone(r, 2, 3, quizInfo.Rec(), b, c, d, buf[..], start, off, mid, next);
    }

    method WriteField4(buf: array<byte>, off: nat, ghost r: R.Record, ghost b: seq<byte>, ghost start: nat) returns (next: nat)
      requires R.Get(r, 4) == if chatInfo == null then None else Some(R.VRec(chatInfo.Rec()))
      requires Due(r, 3, 4, b, buf[..], start, off)
      modifies buf
      ensures Progress(r, 4, b, buf[..], start, next)
    {
      hide Progress, Bytes, Wrote, R.Order, R.Get;
      ghost var c := buf[..];
      if chatInfo == null {
        Passed(r, 3, 4, b, c, start, off);
        return off;
      }
      NestedDue(r, 3, 4, chatInfo.Rec(), b, c, start, off);
      var mid := WriteFieldBegin(buf, off, STRUCT, 4);
      ghost var d := buf[..];
      next := chatInfo.FastWrite(buf, mid);
      NestedDone(r, 3, 4, chatInfo.Rec(), b, c, d, buf[..], start, off, mid, next);
    }

    method WriteField10(buf: array<byte>, off: nat, ghost r: R.Record, ghost b: seq<byte>, ghost start: nat) returns (next: nat)
      requires R.Get(r, 10) == R.OptStr(sdp)
      requires Due(r, 4, 10, b, buf[..], start, off)
      modifies buf
      ensures Progress(r, 5, b, buf[..], start, next)
    {
      hide Progress, Bytes, Wrote, R.Order, R.Get;
      if sdp.None? {
        Passed(r, 4, 10, b, buf[..], start, off);
        return off;
      }
      next := EmitString(buf, off, 10, sdp.value, r, 4, b, start);
    }

    method WriteField11(buf: array<byte>, off: nat, ghost r: R.Record, ghost b: seq<byte>, ghost start: nat) returns (next: nat)
      requires R.Get(r, 11) == R.OptStr(filename)
      requires Due(r, 5, 11, b, buf[..], start, off)
      modifies buf
      ensures Progress(r, 6, b, buf[..], start, next)
    {
      hide Progress, Bytes, Wrote, R.Order, R.Get;
      if filename.None? {
        Passed(r, 5, 11, b, buf[..], start, off);
        return off;
      }
      next := EmitString(buf, off, 11, filename.value, r, 5, b, start);
    }

    method WriteField12(buf: array<byte>, off: nat, ghost r: R.Record, ghost b: seq<byte>, ghost start: nat) returns (next: nat)
      requires R.Get(r, 12) == if idList.None? then None else Some(R.VIds(idList.value))
      requires Due(r, 6, 12, b, buf[..], start, off)
      modifies buf
      ensures Progress(r, 7, b, buf[..], start, next)
    {
      hide Progress, Bytes, Wrote, R.Order, R.Get;
      if idList.None? {
        Passed(r, 6, 12, b, buf[..], start, off);
        return off;
      }
      next := EmitIds(buf, off, 12, idList.value, r, 6, b, start);
    }

    method WriteField13(buf: array<byte>, off: nat, ghost r: R.Record, ghost b: seq<byte>, ghost start: nat) returns (next: nat)
      requires R.Get(r, 13) == R.OptStr(text)
      requires Due(r, 7, 13, b, buf[..], start, off)
      modifies buf
      ensures Progress(r, 8, b, buf[..], start, next)
    {
      hide Progress, Bytes, Wrote, R.Order, R.Get;
      if text.None? {
        Passed(r, 7, 13, b, buf[..], start, off);
        return off;
      }
      next := EmitString(buf, off, 13, text.value, r, 7, b, start);
    }

    method WriteStructs(buf: array<byte>, off: nat, ghost r: R.Record, ghost b: seq<byte>, ghost start: nat) returns (next: nat)
      requires R.Order(R.KindOf(r)) == [1, 2, 3, 4, 10, 11, 12, 13] && Progress(r, 0, b, buf[..], start, off)
      requires R.Get(r, 1) == if userInfo == null then None else Some(R.VRec(userInfo.Rec()))
      requires R.Get(r, 2) == if lessonInfo == null then None else Some(R.VRec(lessonInfo.Rec()))
      requires R.Get(r, 3) == if quizInfo == null then None else Some(R.VRec(quizInfo.Rec()))
      requires R.Get(r, 4) == if chatInfo == null then None else Some(R.VRec(chatInfo.Rec()))
      modifies buf
      ensures Progress(r, 4, b, buf[..], start, next)
    {
      hide Progress, R.Order, R.Get, User.View, Lesson.View, Quiz.View, Chat.View;
      next := WriteField1(buf, off, r, b, start);
      next := WriteField2(buf, next, r, b, start);
      next := WriteField3(buf, next, r, b, start);
      next := WriteField4(buf, next, r, b, start);
    }

    method WritePlain(buf: array<byte>, off: nat, ghost r: R.Record, ghost b: seq<byte>, ghost start: nat) returns (next: nat)
      requires R.Order(R.KindOf(r)) == [1, 2, 3, 4, 10, 11, 12, 13] && Progress(r, 4, b, buf[..], start, off)
      requires R.Get(r, 10) == R.OptStr(sdp) && R.Get(r, 11) == R.OptStr(filename) && R.Get(r, 13) == R.OptStr(text)
      requires R.Get(r, 12) == if idList.None? then None else Some(R.VIds(idList.value))
      modifies buf
      ensures Progress(r, 8, b, buf[..], start, next)
    {
      hide Progress, R.Order, R.Get;
      next := WriteField10(buf, off, r, b, start);
      next := WriteField11(buf, next, r, b, start);
      next := WriteField12(buf, next, r, b, start);
      next := WriteField13(buf, next, r, b, start);
    }

    /** Panics, here None, unless exactly one field is set. */
    method FastWrite(buf: array<byte>, start: nat) returns (next: Option<nat>)
      requires start + |Bytes(Rec())| <= buf.Length
      modifies buf
      ensures next.Some? <==> R.Encodable(Rec())
      ensures next.Some? ==> Wrote(old(buf[..]), buf[..], start, next.value, Bytes(Rec()))
    {
      hide Progress, Bytes, Wrote, R.CountSetFields, Data.CountSetFields, User.View, Lesson.View, Quiz.View, Chat.View;
      CountIsView();
      if CountSetFields() != 1 { return None; }
      ghost var r, b := Rec(), buf[..];
      assert R.Order(R.KindOf(r)) == [1, 2, 3, 4, 10, 11, 12, 13];
      Begun(r, b, start);
      Fields();
      hide R.Order, R.Get;
      var off := WriteStructs(buf, start, r, b, start);
      off := WritePlain(buf, off, r, b, start);
      off := EmitStop(buf, off, r, b, start);
      next := Some(off);
    }

    method StructsLength() returns (l: nat)
      ensures l == PieceSize(Rec(), 1) + PieceSize(Rec(), 2) + PieceSize(Rec(), 3) + PieceSize(Rec(), 4)
    {
      ghost var r := Rec();
      Fields();
      hide Bytes, R.Get, User.View, Lesson.View, Quiz.View, Chat.View;
      l := 0;
      if userInfo != null {
        var n := userInfo.BLength();
        l := l + 3 + n;
      }
      assert l == PieceSize(r, 1);
      if lessonInfo != null {
        var n := lessonInfo.BLength();
        l := l + 3 + n;
      }
      assert l == PieceSize(r, 1) + PieceSize(r, 2);
      if quizInfo != null {
        var n := quizInfo.BLength();
        l := l + 3 + n;
      }
      assert l == PieceSize(r, 1) + PieceSize(r, 2) + PieceSize(r, 3);
      if chatInfo != null {
        var n := chatInfo.BLength();
        l := l + 3 + n;
      }
    }

    method PlainLength() returns (l: nat)
      ensures l == PieceSize(Rec(), 10) + PieceSize(Rec(), 11) + PieceSize(Rec(), 12) + PieceSize(Rec(), 13)
    {
      ghost var r := Rec();
      Fields();
      hide Bytes, R.Get, Data.View;
      l := 0;
      if sdp.Some? { l := l + 3 + 4 + |sdp.value|; }
      assert l == PieceSize(r, 10);
      if filename.Some? { l := l + 3 + 4 + |filename.value|; }
      assert l == PieceSize(r, 10) + PieceSize(r, 11);
      if idList.Some? { l := l + 3 + 5 + 8 * |idList.value|; }
      assert l == PieceSize(r, 10) + PieceSize(r, 11) + PieceSize(r, 12);
      if text.Some? { l := l + 3 + 4 + |text.value|; }
    }

    /** Panics, here None, under the same condition as FastWrite. */
    method BLength() returns (length: Option<nat>)
      ensures length.Some? <==> R.Encodable(Rec())
      ensures length.Some? ==> length.value == |Bytes(Rec())|
    {
      hide Bytes, PieceSize, Data.CountSetFields, R.CountSetFields;
      CountIsView();
      if CountSetFields() != 1 { return None; }
      LengthIsById(Rec());
      var structs := StructsLength();
      var plain := PlainLength();
      length := Some(structs + plain + 1);
    }
  }

  class Resp {
    var code: R.i16
    var msg: R.Str
    var data: Data?

    constructor ()
      ensures Rec() == R.Empty(R.KResp)
      ensures fresh(this)
    {
      code, msg, data := 0, [], null;
    }

    function View(): R.Resp
      reads this, data, if data != null then data.Structs() else {}, if data != null then data.Elems() else []
    {
      R.Resp(code, msg, if data == null then None else Some(data.View()))
    }

    function Rec(): R.Record
      reads this, data, if data != null then data.Structs() else {}, if data != null then data.Elems() else []
    {
      R.RResp(View())
    }

    method ReadData(buf: seq<byte>, off: nat) returns (end: Option<nat>)
      modifies this
      ensures (Rec(), end) == ReadField(old(Rec()), STRUCT, 3, buf, off)
    {
      hide ReadField, ReadVal, ReadRecord, R.Empty, User.View, Lesson.View, Quiz.View, Chat.View;
      var x := new Data();
      end := x.FastRead(buf, off);
      NestedVal(R.KData, x.Rec(), end, buf, off);
      Assigned(Rec(), STRUCT, 3, buf, off, R.VRec(x.Rec()), end);
      if end.Some? { data := x; }
    }

    method ReadOne(buf: seq<byte>, ty: byte, id: int, off: nat) returns (end: Option<nat>)
      modifies this
      ensures (Rec(), end) == ReadField(old(Rec()), ty, id, buf, off)
    {
      hide ReadField, ReadVal, ReadRecord, Skip, User.View, Lesson.View, Quiz.View, Chat.View;
      ghost var r := Rec();
      if id == 1 && ty == I16 {
        var x, o := ReadI16(buf, off);
        Assigned(r, ty, id, buf, off, R.V16(x), o);
        if o.Some? { code := x; }
        return o;
      }
      if id == 2 && ty == STRING {
        var x, o := ReadStr(buf, off);
        Assigned(r, ty, id, buf, off, R.VStr(x), o);
        if o.Some? { msg := x; }
        return o;
      }
      if id == 3 && ty == STRUCT {
        end := ReadData(buf, off);
        return end;
      }
      Skipped(r, ty, id, buf, off);
      end := Skip(buf, off, ty);
    }

    method FastRead(buf: seq<byte>, start: nat) returns (end: Option<nat>)
      modifies this
      ensures (Rec(), end) == ReadRecord(old(Rec()), buf, start)
    {
      hide ReadField, ReadFieldBegin;
      ghost var goal := ReadRecord(Rec(), buf, start);
      var offset := start;
      while true
        invariant ReadRecord(Rec(), buf, offset) == goal
        decreases |buf| - offset
      {
        var h := ReadFieldBegin(buf, offset);
        if h.None? { return None; }
        if h.value.ty == STOP { return Some(h.value.next); }
        var o := ReadOne(buf, h.value.ty, h.value.id, h.value.next);
        if o.None? { return None; }
        offset := o.value;
      }
    }

    method FastWrite(buf: array<byte>, start: nat) returns (next: Option<nat>)
      requires start + |Bytes(Rec())| <= buf.Length
      modifies buf
      ensures next.Some? <==> R.Encodable(Rec())
      ensures next.Some? ==> Wrote(old(buf[..]), buf[..], start, next.value, Bytes(Rec()))
    {
      hide Progress, Bytes, Wrote, R.CountSetFields, User.View, Lesson.View, Quiz.View, Chat.View;
      ghost var r, b := Rec(), buf[..];
      assert R.Order(R.KindOf(r)) == [1, 2, 3];
      Begun(r, b, start);
      var off := start;
      off := EmitI16(buf, off, 1, code, r, 0, b, start);
      off := EmitString(buf, off, 2, msg, r, 1, b, start);
      if data != null {
        NestedDue(r, 2, 3, data.Rec(), b, buf[..], start, off);
        ghost var c := buf[..];
        var mid := WriteFieldBegin(buf, off, STRUCT, 3);
        ghost var d := buf[..];
        var end := data.FastWrite(buf, mid);
        if end.None? { return None; }
        NestedDone(r, 2, 3, data.Rec(), b, c, d, buf[..], start, off, mid, end.value);
        off := end.value;
      } else {
        Passed(r, 2, 3, b, buf[..], start, off);
      }
      off := EmitStop(buf, off, r, b, start);
      next := Some(off);
    }

    method BLength() returns (length: Option<nat>)
      ensures length.Some? <==> R.Encodable(Rec())
      ensures length.Some? ==> length.value == |Bytes(Rec())|
    {
      LengthIsById(Rec());
      hide Bytes;
      var l := 0;
      l := l + 3 + 2;
      l := l + 3 + 4 + |msg|;
      if data != null {
        var n := data.BLength();
        if n.None? { return None; }
        l := l + 3 + n.value;
      }
      l := l + 1;
      length := Some(l);
    }
  }
}
