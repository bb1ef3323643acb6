/** The flat structs as the generated code holds them: filled in place by FastRead, written into
    a buffer in place by FastWrite, measured by BLength
    (idl/kitex_gen/common/k-common.go). A field header takes 3 bytes, a string length 4, a list
    header 5. */
module FlatStructs {
  import opened Wrappers
  import opened ThriftBinary
  import opened ThriftWriter
  import R = CommonRecords
  import opened CommonReader
  import opened CommonFormat
  import opened CommonWriter

  /** The elements read so far in front of those still to be read. */
  function After<T>(done: seq<T>, rest: Option<(seq<T>, nat)>): Option<(seq<T>, nat)> {
    if rest.None? then None else Some((done + rest.value.0, rest.value.1))
  }

  lemma NothingRead<T>(rest: Option<(seq<T>, nat)>)
    ensures After([], rest) == rest
  {
    if rest.Some? { assert [] + rest.value.0 == rest.value.0; }
  }

  lemma NextId(ids: seq<R.i64>, n: nat, x: R.i64, buf: seq<byte>, off: nat)
    requires n > 0 && off <= |buf| && ReadInt(8, buf, off) == Some(x)
    ensures After(ids, ReadIds(n, buf, off)) == After(ids + [x], ReadIds(n - 1, buf, off + 8))
  {
    var rest := ReadIds(n - 1, buf, off + 8);
    if rest.Some? { assert ids + ([x] + rest.value.0) == (ids + [x]) + rest.value.0; }
  }

  /** The list of ids at an offset; its element type is read and dropped. */
  method ReadIdList(buf: seq<byte>, off: nat) returns (ids: R.Ids, end: Option<nat>)
    ensures ReadVal(R.IdsS, buf, off) == if end.None? then None else Some(Got(R.VIds(ids), end.value))
  {
    hide ReadVal, ReadIds, ReadListBegin, After, Signed;
    Widths();
    ids := [];
    var h := ReadListBegin(buf, off);
    if h.None? {
      NoList(buf, off);
      return ids, None;
    }
    var size, offset: nat := h.value.size, h.value.next;
    ghost var whole := ReadIds(size, buf, offset);
    IdsVal(buf, off, whole);
    NothingRead(whole);
    for i := 0 to size
      invariant |ids| == i && offset <= |buf|
      invariant whole == After(ids, ReadIds(size - i, buf, offset))
    {
      var x := ReadInt(8, buf, offset);
      if x.None? {
        NoId(ids, size - i, buf, offset);
        return ids, None;
      }
      NextId(ids, size - i, x.value, buf, offset);
      ids := ids + [x.value];
      offset := offset + 8;
    }
    NoMoreIds(ids, buf, offset);
    end := Some(offset);
  }

  lemma NoId(ids: seq<R.i64>, n: nat, buf: seq<byte>, off: nat)
    requires n > 0 && off <= |buf| && ReadInt(8, buf, off).None?
    ensures After(ids, ReadIds(n, buf, off)).None?
  {
  }

  lemma NoMoreIds(ids: seq<R.i64>, buf: seq<byte>, off: nat)
    requires off <= |buf|
    ensures After(ids, ReadIds(0, buf, off)) == Some((ids, off))
  {
    assert ids + [] == ids;
  }

  class User {
    var userID: R.i64
    var userName: R.Str
    var auth: R.Str
    var status: R.i8

    constructor ()
      ensures Rec() == R.Empty(R.KUser)
    {
      userID, userName, auth, status := 0, [], [], 0;
    }

    function View(): R.User
      reads this
    {
      R.User(userID, userName, auth, status)
    }

    function Rec(): R.Record
      reads this
    {
      R.RUser(View())
    }

    method ReadOne(buf: seq<byte>, ty: byte, id: int, off: nat) returns (end: Option<nat>)
      modifies this
      ensures (Rec(), end) == ReadField(old(Rec()), ty, id, buf, off)
    {
      hide ReadField, ReadVal, ReadRecord, Skip;
      ghost var r := Rec();
      if id == 1 && ty == I64 {
        var x, o := ReadI64(buf, off);
        Assigned(r, ty, id, buf, off, R.V64(x), o);
        if o.Some? { userID := x; }
        return o;
      }
      if id == 2 && ty == STRING {
        var x, o := ReadStr(buf, off);
        Assigned(r, ty, id, buf, off, R.VStr(x), o);
        if o.Some? { userName := x; }
        return o;
      }
      if id == 3 && ty == STRING {
        var x, o := ReadStr(buf, off);
        Assigned(r, ty, id, buf, off, R.VStr(x), o);
        if o.Some? { auth := x; }
        return o;
      }
      if id == 4 && ty == BYTE {
        var x, o := ReadByte(buf, off);
        Assigned(r, ty, id, buf, off, R.VByte(x), o);
        if o.Some? { status := x; }
        return o;
      }
      Skipped(r, ty, id, buf, off);
      end := Skip(buf, off, ty);
    }

    method FastRead(buf: seq<byte>, start: nat) returns (end: Option<nat>)
      modifies this
      ensures (Rec(), end) == ReadRecord(old(Rec()), buf, start)
    {
      hide ReadField, ReadFieldBegin;
      ghost var goal := ReadRecord(Rec(), buf, start);
      var offset := start;
      while true
        invariant ReadRecord(Rec(), buf, offset) == goal
        decreases |buf| - offset
      {
        var h := ReadFieldBegin(buf, offset);
        if h.None? { return None; }
        if h.value.ty == STOP { return Some(h.value.next); }
        var o := ReadOne(buf, h.value.ty, h.value.id, h.value.next);
        if o.None? { return None; }
        offset := o.value;
      }
    }

    method FastWrite(buf: array<byte>, start: nat) returns (next: nat)
      requires start + |Bytes(Rec())| <= buf.Length
      modifies buf
      ensures Wrote(old(buf[..]), buf[..], start, next, Bytes(Rec()))
    {
      hide Progress, Bytes, Wrote;
      ghost var r, b := Rec(), buf[..];
      assert R.Order(R.KindOf(r)) == [1, 4, 2, 3];
      Begun(r, b, start);
      next := EmitI64(buf, start, 1, userID, r, 0, b, start);
      next := EmitByte(buf, next, 4, status, r, 1, b, start);
      next := EmitString(buf, next, 2, userName, r, 2, b, start);
      next := EmitString(buf, next, 3, auth, r, 3, b, start);
      next := EmitStop(buf, next, r, b, start);
    }

    method BLength() returns (l: nat)
      ensures l == |Bytes(Rec())|
    {
      LengthIsById(Rec());
      hide Bytes;
      l := 0;
      l := l + 3 + 8;
      l := l + 3 + 4 + |userName|;
      l := l + 3 + 4 + |auth|;
      l := l + 3 + 1;
      l := l + 1;
    }
  }

  class Lesson {
    var lessonID: R.i64
    var name: R.Str
    var teacherName: R.Str
    var description: R.Str
    var studentID: R.Ids
    var teacherID: R.i64

    constructor ()
      ensures Rec() == R.Empty(R.KLesson)
    {
      lessonID, name, teacherName, description, studentID, teacherID := 0, [], [], [], [], 0;
    }

    function View(): R.Lesson
      reads this
    {
      R.Lesson(lessonID, name, teacherName, description, studentID, teacherID)
    }

    function Rec(): R.Record
      reads this
    {
      R.RLesson(View())
    }

    method ReadOne(buf: seq<byte>, ty: byte, id: int, off: nat) returns (end: Option<nat>)
      modifies this
      ensures (Rec(), end) == ReadField(old(Rec()), ty, id, buf, off)
    {
      hide ReadField, ReadVal, ReadRecord, Skip;
      ghost var r := Rec();
      if id == 1 && ty == I64 {
        var x, o := ReadI64(buf, off);
        Assigned(r, ty, id, buf, off, R.V64(x), o);
        if o.Some? { lessonID := x; }
        return o;
      }
      if id == 2 && ty == STRING {
        var x, o := ReadStr(buf, off);
        Assigned(r, ty, id, buf, off, R.VStr(x), o);
        if o.Some? { name := x; }
        return o;
      }
      if id == 3 && ty == STRING {
        var x, o := ReadStr(buf, off);
        Assigned(r, ty, id, buf, off, R.VStr(x), o);
        if o.Some? { teacherName := x; }
        return o;
      }
      if id == 4 && ty == STRING {
        var x, o := ReadStr(buf, off);
        Assigned(r, ty, id, buf, off, R.VStr(x), o);
        if o.Some? { description := x; }
        return o;
      }
      if id == 5 && ty == LIST {
        var x, o := ReadIdList(buf, off);
        Assigned(r, ty, id, buf, off, R.VIds(x), o);
        if o.Some? { studentID := x; }
        return o;
      }
      if id == 6 && ty == I64 {
        var x, o := ReadI64(buf, off);
        Assigned(r, ty, id, buf, off, R.V64(x), o);
        if o.Some? { teacherID := x; }
        return o;
      }
      Skipped(r, ty, id, buf, off);
      end := Skip(buf, off, ty);
    }

    method FastRead(buf: seq<byte>, start: nat) returns (end: Option<nat>)
      modifies this
      ensures (Rec(), end) == ReadRecord(old(Rec()), buf, start)
    {
      hide ReadField, ReadFieldBegin;
      ghost var goal := ReadRecord(Rec(), buf, start);
      var offset := start;
      while true
        invariant ReadRecord(Rec(), buf, offset) == goal
        decreases |buf| - offset
      {
        var h := ReadFieldBegin(buf, offset);
        if h.None? { return None; }
        if h.value.ty == STOP { return Some(h.value.next); }
        var o := ReadOne(buf, h.value.ty, h.value.id, h.value.next);
        if o.None? { return None; }
        offset := o.value;
      }
    }

    method FastWrite(buf: array<byte>, start: nat) returns (next: nat)
      requires start + |Bytes(Rec())| <= buf.Length
      modifies buf
      ensures Wrote(old(buf[..]), buf[..], start, next, Bytes(Rec()))
    {
      hide Progress, Bytes, Wrote;
      ghost var r, b := Rec(), buf[..];
      assert R.Order(R.KindOf(r)) == [1, 6, 2, 3, 4, 5];
      Begun(r, b, start);
      next := EmitI64(buf, start, 1, lessonID, r, 0, b, start);
      next := EmitI64(buf, next, 6, teacherID, r, 1, b, start);
      next := EmitString(buf, next, 2, name, r, 2, b, start);
      next := EmitString(buf, next, 3, teacherName, r, 3, b, start);
      next := EmitString(buf, next, 4, description, r, 4, b, start);
      next := EmitIds(buf, next, 5, studentID, r, 5, b, start);
      next := EmitStop(buf, next, r, b, start);
    }

    method BLength() returns (l: nat)
      ensures l == |Bytes(Rec())|
    {
      LengthIsById(Rec());
      hide Bytes;
      l := 0;
      l := l + 3 + 8;
      l := l + 3 + 4 + |name|;
      l := l + 3 + 4 + |teacherName|;
      l := l + 3 + 4 + |description|;
      l := l + 3 + 5 + 8 * |studentID|;
      l := l + 3 + 8;
      l := l + 1;
    }
  }

  class QuizStat {
    var option: R.Str
    var count: R.i64

    constructor ()
      ensures Rec() == R.Empty(R.KStat)
    {
      option, count := [], 0;
    }

    function View(): R.QuizStat
      reads this
    {
      R.QuizStat(option, count)
    }

    function Rec(): R.Record
      reads this
    {
      R.RStat(View())
    }

    method ReadOne(buf: seq<byte>, ty: byte, id: int, off: nat) returns (end: Option<nat>)
      modifies this
      ensures (Rec(), end) == ReadField(old(Rec()), ty, id, buf, off)
    {
      hide ReadField, ReadVal, ReadRecord, Skip;
      ghost var r := Rec();
      if id == 1 && ty == STRING {
        var x, o := ReadStr(buf, off);
        Assigned(r, ty, id, buf, off, R.VStr(x), o);
        if o.Some? { option := x; }
        return o;
      }
      if id == 2 && ty == I64 {
        var x, o := ReadI64(buf, off);
        Assigned(r, ty, id, buf, off, R.V64(x), o);
        if o.Some? { count := x; }
        return o;
      }
      Skipped(r, ty, id, buf, off);
      end := Skip(buf, off, ty);
    }

    method FastRead(buf: seq<byte>, start: nat) returns (end: Option<nat>)
      modifies this
      ensures (Rec(), end) == ReadRecord(old(Rec()), buf, start)
    {
      hide ReadField, ReadFieldBegin;
      ghost var goal := ReadRecord(Rec(), buf, start);
      var offset := start;
      while true
        invariant ReadRecord(Rec(), buf, offset) == goal
        decreases |buf| - offset
      {
        var h := ReadFieldBegin(buf, offset);
        if h.None? { return None; }
        if h.value.ty == STOP { return Some(h.value.next); }
        var o := ReadOne(buf, h.value.ty, h.value.id, h.value.next);
        if o.None? { return None; }
        offset := o.value;
      }
    }

    method FastWrite(buf: array<byte>, start: nat) returns (next: nat)
      requires start + |Bytes(Rec())| <= buf.Length
      modifies buf
      ensures Wrote(old(buf[..]), buf[..], start, next, Bytes(Rec()))
    {
      hide Progress, Bytes, Wrote;
      ghost var r, b := Rec(), buf[..];
      assert R.Order(R.KindOf(r)) == [2, 1];
      Begun(r, b, start);
      next := EmitI64(buf, start, 2, count, r, 0, b, start);
      next := EmitString(buf, next, 1, option, r, 1, b, start);
      next := EmitStop(buf, next, r, b, start);
    }

    method BLength() returns (l: nat)
      ensures l == |Bytes(Rec())|
    {
      LengthIsById(Rec());
      hide Bytes;
      l := 0;
      l := l + 3 + 4 + |option|;
      l := l + 3 + 8;
      l := l + 1;
    }
  }

  class Chat {
    var message: R.Str

    constructor ()
      ensures Rec() == R.Empty(R.KChat)
    {
      message := [];
    }

    function View(): R.Chat
      reads this
    {
      R.Chat(message)
    }

    function Rec(): R.Record
      reads this
    {
      R.RChat(View())
    }

    method ReadOne(buf: seq<byte>, ty: byte, id: int, off: nat) returns (end: Option<nat>)
      modifies this
      ensures (Rec(), end) == ReadField(old(Rec()), ty, id, buf, off)
    {
      hide ReadField, ReadVal, ReadRecord, Skip;
      ghost var r := Rec();
      if id == 1 && ty == STRING {
        var x, o := ReadStr(buf, off);
        Assigned(r, ty, id, buf, off, R.VStr(x), o);
        if o.Some? { message := x; }
        return o;
      }
      Skipped(r, ty, id, buf, off);
      end := Skip(buf, off, ty);
    }

    method FastRead(buf: seq<byte>, start: nat) returns (end: Option<nat>)
      modifies this
      ensures (Rec(), end) == ReadRecord(old(Rec()), buf, start)
    {
      hide ReadField, ReadFieldBegin;
      ghost var goal := ReadRecord(Rec(), buf, start);
      var offset := start;
      while true
        invariant ReadRecord(Rec(), buf, offset) == goal
        decreases |buf| - offset
      {
        var h := ReadFieldBegin(buf, offset);
        if h.None? { return None; }
        if h.value.ty == STOP { return Some(h.value.next); }
        var o := ReadOne(buf, h.value.ty, h.value.id, h.value.next);
        if o.None? { return None; }
        offset := o.value;
      }
    }

    method FastWrite(buf: array<byte>, start: nat) returns (next: nat)
      requires start + |Bytes(Rec())| <= buf.Length
      modifies buf
      ensures Wrote(old(buf[..]), buf[..], start, next, Bytes(Rec()))
    {
      hide Progress, Bytes, Wrote;
      ghost var r, b := Rec(), buf[..];
      assert R.Order(R.KindOf(r)) == [1];
      Begun(r, b, start);
      next := EmitString(buf, start, 1, message, r, 0, b, start);
      next := EmitStop(buf, next, r, b, start);
    }

    method BLength() returns (l: nat)
      ensures l == |Bytes(Rec())|
    {
      LengthIsById(Rec());
      hide Bytes;
      l := 0;
      l := l + 3 + 4 + |message|;
      l := l + 1;
    }
  }
}
