/** The paging loop that replays missed messages (internal/api/service/chat_ws.go), against
    the history service as its handler and query behave (internal/rpc/chat). */
module HistoryReplay {
  import opened ChatMessages

  const BATCH_SIZE: nat := 100
  const MAX_MESSAGES: nat := 1000

  /** What a history call can give back. */
  datatype Reply =
    | Failed(error: string)
    | Empty
    | Unreadable
    | Page(messages: seq<Message>, hasMore: bool, nextCursor: string)

  datatype Kind = ResumeComplete | ResumeError(error: string)

  datatype Status = Status(
    kind: Kind, afterMessageId: string, lastLessonSeq: int, recovered: nat, truncated: bool)

  function Min(a: int, b: int): int {
    if a < b then a else b
  }

  /** The history of one lesson, oldest first, and the calls that fail on the way. */
  datatype History = History(log: seq<Message>, faults: map<nat, Reply>) {
    ghost predicate Valid() {
      && (forall i :: 0 <= i < |log| ==> log[i].messageId != "")
      && (forall i, j :: 0 <= i < j < |log| ==> log[i].messageId != log[j].messageId)
      && (forall k :: k in faults ==> !faults[k].Page?)
    }

    /** Position of an id from i on, or the length of the history when it is not there. */
    function IndexFrom(id: string, i: nat): (p: nat)
      requires i <= |log|
      ensures i <= p <= |log|
      ensures p < |log| ==> log[p].messageId == id
      decreases |log| - i
    {
      if i == |log| || log[i].messageId == id then i else IndexFrom(id, i + 1)
    }

    /** The messages right after the anchor, at most `limit`; whether there are more; and the
        last id as the next cursor. An unknown anchor is an error. */
    function Get(call: nat, after: string, limit: nat): Reply {
      if call in faults then faults[call] else
      var p := IndexFrom(after, 0);
      if p == |log| then Failed("anchor not found") else
      var end := Min(p + 1 + limit, |log|);
      Page(log[p + 1..end], p + 1 + limit < |log|, if end == p + 1 then "" else log[end - 1].messageId)
    }

    predicate Knows(after: string) {
      IndexFrom(after, 0) < |log|
    }

    /** How many messages were stored after the anchor, and the first n of them. */
    function Missed(after: string): nat {
      if Knows(after) then |log| - IndexFrom(after, 0) - 1 else 0
    }

    function First(after: string, n: nat): seq<Message>
      requires n <= Missed(after)
    {
      if Knows(after) then log[IndexFrom(after, 0) + 1..IndexFrom(after, 0) + 1 + n] else []
    }
  }

  /** How many calls a complete replay of m missed messages makes. */
  function Calls(m: nat): nat {
    if m == 0 then 1 else (Min(m, MAX_MESSAGES) + BATCH_SIZE - 1) / BATCH_SIZE
  }

  /** The greatest lesson number among the messages, or 0. */
  function MaxSeq(ms: seq<Message>): int {
    if ms == [] then 0 else
    var m := MaxSeq(ms[..|ms| - 1]);
    if ms[|ms| - 1].lessonSeq > m then ms[|ms| - 1].lessonSeq else m
  }

  lemma {:induction false} MaxSeqIsGreatest(ms: seq<Message>)
    ensures MaxSeq(ms) >= 0 && forall m :: m in ms ==> m.lessonSeq <= MaxSeq(ms)
    ensures MaxSeq(ms) > 0 ==> exists m :: m in ms && m.lessonSeq == MaxSeq(ms)
  {
    if ms != [] {
      MaxSeqIsGreatest(ms[..|ms| - 1]);
      assert ms == ms[..|ms| - 1] + [ms[|ms| - 1]];
    }
  }

  function LastId(after: string, taken: seq<Message>): string {
    if taken == [] then after else taken[|taken| - 1].messageId
  }

  /** The status after exactly these messages were taken. */
  function StatusFor(after: string, taken: seq<Message>): Status {
    Status(ResumeComplete, LastId(after, taken), MaxSeq(taken), |taken|, false)
  }

  /** None of the first n calls fails. */
  predicate NoFaults(h: History, n: nat) {
    forall i: nat :: i < n ==> i !in h.faults
  }

  /** The client takes the first n messages offered. */
  predicate Takes(accepts: nat -> bool, n: nat) {
    forall i: nat :: i < n ==> accepts(i)
  }

  /** Exactly when the replay ends complete: the anchor is known, no call it makes fails, and
      the client takes every message offered. */
  predicate GoesThrough(h: History, accepts: nat -> bool, after: string) {
    && h.Knows(after)
    && NoFaults(h, Calls(h.Missed(after)))
    && Takes(accepts, Min(h.Missed(after), MAX_MESSAGES))
  }

  /** What a replay has done when it returns: it offered the missed messages in order and
      stopped at the first one refused; the status counts and names exactly those taken; it
      is complete exactly if nothing stood in the way, then at most the first 1000 were
      offered, and truncation is reported exactly if there were more. */
  ghost predicate Outcome(h: History, accepts: nat -> bool, after: string, status: Status, offered: seq<Message>) {
    && |offered| <= Min(h.Missed(after), 1000) && offered == h.First(after, |offered|)
    && status.recovered <= |offered| <= status.recovered + 1
    && Takes(accepts, status.recovered)
    && status == StatusFor(after, h.First(after, status.recovered)).(kind := status.kind, truncated := status.truncated)
    && (status.kind.ResumeComplete? <==> GoesThrough(h, accepts, after))
    && (status.kind.ResumeComplete? ==> status.recovered == |offered| == Min(h.Missed(after), 1000))
    && (status.truncated <==> status.kind.ResumeComplete? && h.Missed(after) > 1000)
  }

  // ----------------------------------------------------------------------- pages

  lemma {:induction false} IndexOfEntry(h: History, k: nat, i: nat)
    requires k <= i < |h.log| && forall j :: 0 <= j < i ==> h.log[j].messageId != h.log[i].messageId
    ensures h.IndexFrom(h.log[i].messageId, k) == i
    decreases i - k
  {
    if k < i { IndexOfEntry(h, k + 1, i); }
  }

  /** The cursor after n messages of the missed ones. */
  ghost predicate CursorAt(h: History, after: string, n: nat, cursor: string) {
    if h.Knows(after) then n <= h.Missed(after) && h.IndexFrom(cursor, 0) == h.IndexFrom(after, 0) + n
    else n == 0 && cursor == after
  }

  /** A page is the next piece: a full batch with more to come, or all the rest. */
  ghost predicate PieceOk(h: History, after: string, n: nat, page: Reply) {
    && page.Page? && h.Knows(after) && n + |page.messages| <= h.Missed(after)
    && h.First(after, n) + page.messages == h.First(after, n + |page.messages|)
    && (if page.hasMore then
          && n + BATCH_SIZE < h.Missed(after) && |page.messages| == BATCH_SIZE
          && page.nextCursor != "" && CursorAt(h, after, n + BATCH_SIZE, page.nextCursor)
        else
          n + |page.messages| == h.Missed(after) <= n + BATCH_SIZE)
  }

  lemma GetGivesPiece(h: History, after: string, n: nat, cursor: string, call: nat, reply: Reply)
    requires h.Valid() && CursorAt(h, after, n, cursor) && reply == h.Get(call, cursor, BATCH_SIZE)
    ensures reply.Page? ==> call !in h.faults && PieceOk(h, after, n, reply)
    ensures !reply.Page? ==> call in h.faults || !h.Knows(after)
  {
    hide History.IndexFrom, PieceOk;
    if reply.Page? {
      assert h.Knows(after);
      PageIsPiece(h, after, n, Min(h.IndexFrom(after, 0) + 1 + n + BATCH_SIZE, |h.log|), reply);
    }
  }

  lemma PageIsPiece(h: History, after: string, n: nat, end: nat, page: Reply)
    requires h.Valid() && h.Knows(after) && n <= h.Missed(after)
    requires var p := h.IndexFrom(after, 0) + 1;
             && end == Min(p + n + BATCH_SIZE, |h.log|)
             && page == Page(h.log[p + n..end], p + n + BATCH_SIZE < |h.log|, if end == p + n then "" else h.log[end - 1].messageId)
    ensures PieceOk(h, after, n, page)
  {
    hide History.IndexFrom, History.Valid;
    var p := h.IndexFrom(after, 0) + 1;
    PieceOfLog(h, p, n, end);
    if page.hasMore { LastOfPage(h, end); }
    assert h.First(after, n) == h.log[p..p + n] && h.First(after, end - p) == h.log[p..end];
    assert n + |page.messages| == end - p;
  }

  lemma PieceOfLog(h: History, p: nat, n: nat, end: nat)
    requires p + n <= end <= |h.log|
    ensures h.log[p..p + n] + h.log[p + n..end] == h.log[p..end]
  {
  }

  lemma LastOfPage(h: History, end: nat)
    requires h.Valid() && 0 < end <= |h.log|
    ensures h.IndexFrom(h.log[end - 1].messageId, 0) == end - 1 && h.log[end - 1].messageId != ""
  {
    IndexOfEntry(h, 0, end - 1);
  }

  lemma CallCount(calls: nat, m: nat)
    requires BATCH_SIZE * calls < MAX_MESSAGES && (calls > 0 ==> BATCH_SIZE * calls < m)
    ensures calls < Calls(m)
    ensures m <= BATCH_SIZE * (calls + 1) ==> m <= MAX_MESSAGES && Calls(m) == calls + 1
  {
  }

  lemma OneMoreTaken(after: string, taken: seq<Message>, m: Message)
    ensures var s := StatusFor(after, taken);
            StatusFor(after, taken + [m]) ==
              s.(recovered := s.recovered + 1, afterMessageId := m.messageId,
                 lastLessonSeq := if m.lessonSeq > s.lastLessonSeq then m.lessonSeq else s.lastLessonSeq)
  {
    assert (taken + [m])[..|taken|] == taken;
  }

  // -------------------------------------------------------------------- the loop

  /** The inner loop: offers the messages of one page to the client; `accepts(i)` is what the
      i-th EnqueueReplay returns. Returns how many of them were offered. */
  method OfferPage(accepts: nat -> bool, messages: seq<Message>, before: Status, ghost after: string, ghost taken: seq<Message>)
    returns (status: Status, n: nat)
    requires before == StatusFor(after, taken) && Takes(accepts, |taken|)
    ensures n <= |messages| && Takes(accepts, status.recovered) && |taken| <= status.recovered
    ensures status.kind.ResumeComplete? ==> n == |messages| && status == StatusFor(after, taken + messages)
    ensures !status.kind.ResumeComplete? ==>
      && 0 < n && status.recovered == |taken| + n - 1 && !accepts(status.recovered)
      && status == StatusFor(after, taken + messages[..n - 1]).(kind := status.kind)
  {
    status, n := before, 0;
    assert taken + messages[..0] == taken;
    while n < |messages|
      invariant n <= |messages|
      invariant status == StatusFor(after, taken + messages[..n])
      invariant Takes(accepts, |taken| + n)
    {
      if !accepts(status.recovered) {
        return status.(kind := ResumeError("resume send queue full")), n + 1;
      }
      OneMoreTaken(after, taken + messages[..n], messages[n]);
      assert taken + messages[..n + 1] == (taken + messages[..n]) + [messages[n]];
      status := status.(recovered := status.recovered + 1, afterMessageId := messages[n].messageId);
      if messages[n].lessonSeq > status.lastLessonSeq {
        status := status.(lastLessonSeq := messages[n].lessonSeq);
      }
      n := n + 1;
    }
    assert messages[..n] == messages;
  }

  function ErrorOf(reply: Reply): Kind
    requires !reply.Page?
  {
    match reply
    case Failed(error) => ResumeError(error)
    case Empty => ResumeError("empty history response")
    case Unreadable => ResumeError("invalid history response")
  }

  /** Where the loop stands after `calls` full pages. */
  ghost predicate OnTrack(h: History, accepts: nat -> bool, after: string, calls: nat, cursor: string, status: Status, n: nat) {
    && n == BATCH_SIZE * calls <= MAX_MESSAGES && n <= h.Missed(after)
    && (calls > 0 ==> h.Knows(after) && n < h.Missed(after))
    && CursorAt(h, after, n, cursor)
    && status == StatusFor(after, h.First(after, n))
    && NoFaults(h, calls) && Takes(accepts, n)
  }

  lemma Faulted(h: History, accepts: nat -> bool, after: string, calls: nat, cursor: string, status: Status, n: nat, kind: Kind)
    requires h.Valid() && OnTrack(h, accepts, after, calls, cursor, status, n) && n < MAX_MESSAGES
    requires !h.Get(calls, cursor, BATCH_SIZE).Page? && !kind.ResumeComplete?
    ensures Outcome(h, accepts, after, status.(kind := kind), h.First(after, n))
  {
    GetGivesPiece(h, after, n, cursor, calls, h.Get(calls, cursor, BATCH_SIZE));
    CallCount(calls, h.Missed(after));
  }

  lemma FirstMore(h: History, after: string, n: nat, page: Reply, k: nat)
    requires PieceOk(h, after, n, page) && k <= |page.messages|
    ensures n + k <= h.Missed(after) && h.First(after, n) + page.messages[..k] == h.First(after, n + k)
  {
    hide History.IndexFrom, History.First, CursorAt;
    var messages := page.messages;
    var all := h.First(after, n + |messages|);
    FirstIsPrefix(h, after, n, n);
    FirstIsPrefix(h, after, n + k, n + |messages|);
    assert all[..n + k] == h.First(after, n) + messages[..k];
  }

  lemma FirstIsPrefix(h: History, after: string, k: nat, n: nat)
    requires k <= n <= h.Missed(after)
    ensures |h.First(after, n)| == n && h.First(after, k) == h.First(after, n)[..k]
  {
    hide History.IndexFrom;
  }

  lemma Refused(h: History, accepts: nat -> bool, after: string, status: Status, r: nat, taken: seq<Message>, offered: seq<Message>)
    requires r < h.Missed(after) && r < MAX_MESSAGES && !accepts(r) && Takes(accepts, r)
    requires taken == h.First(after, r) && offered == h.First(after, r + 1)
    requires status == StatusFor(after, taken).(kind := status.kind) && !status.kind.ResumeComplete?
    ensures Outcome(h, accepts, after, status, offered)
  {
  }

  /** All there is, or the maximum, has been taken. */
  lemma Completed(h: History, accepts: nat -> bool, after: string, calls: nat, n: nat)
    requires h.Knows(after) && n == Min(h.Missed(after), MAX_MESSAGES) && calls == Calls(h.Missed(after))
    requires NoFaults(h, calls) && Takes(accepts, n)
    ensures Outcome(h, accepts, after, StatusFor(after, h.First(after, n)).(truncated := h.Missed(after) > MAX_MESSAGES), h.First(after, n))
  {
  }

  lemma OneMoreCall(h: History, n: nat)
    requires NoFaults(h, n) && n !in h.faults
    ensures NoFaults(h, n + 1)
  {
  }

  /** One history call at the cursor, for at most what is still allowed. */
  method ReadPage(h: History, ghost accepts: nat -> bool, ghost after: string, calls: nat, cursor: string, status: Status, ghost n: nat)
    returns (reply: Reply)
    requires h.Valid() && OnTrack(h, accepts, after, calls, cursor, status, n) && n < MAX_MESSAGES
    ensures !reply.Page? ==> Outcome(h, accepts, after, status.(kind := ErrorOf(reply)), h.First(after, n))
    ensures reply.Page? ==> NoFaults(h, calls + 1) && PieceOk(h, after, n, reply)
  {
    var limit := BATCH_SIZE;
    if MAX_MESSAGES - status.recovered < limit { limit := MAX_MESSAGES - status.recovered; }
    reply := h.Get(calls, cursor, limit);
    if reply.Page? {
      GetGivesPiece(h, after, n, cursor, calls, reply);
      OneMoreCall(h, calls);
    } else {
      Faulted(h, accepts, after, calls, cursor, status, n, ErrorOf(reply));
    }
  }

  /** Offers the page just read; a refusal ends the replay. */
  method OfferReply(h: History, accepts: nat -> bool, after: string, reply: Reply, before: Status, offered: seq<Message>)
    returns (status: Status, offeredNow: seq<Message>)
    requires PieceOk(h, after, |offered|, reply) && offered == h.First(after, |offered|) && |offered| < MAX_MESSAGES
    requires |reply.messages| <= MAX_MESSAGES - |offered|
    requires before == StatusFor(after, offered) && Takes(accepts, |offered|)
    ensures !status.kind.ResumeComplete? ==> Outcome(h, accepts, after, status, offeredNow)
    ensures status.kind.ResumeComplete? ==>
      && |offeredNow| == |offered| + |reply.messages| && offeredNow == h.First(after, |offeredNow|)
      && status == StatusFor(after, offeredNow) && Takes(accepts, |offeredNow|)
  {
    hide Outcome, MaxSeq, LastId, Takes, History.First, History.IndexFrom, History.Get, CursorAt;
    var count;
    FirstLength(h, after, |offered|, reply);
    status, count := OfferPage(accepts, reply.messages, before, after, offered);
    offeredNow := offered + reply.messages[..count];
    FirstMore(h, after, |offered|, reply, count);
    if !status.kind.ResumeComplete? {
      FirstMore(h, after, |offered|, reply, count - 1);
      Refused(h, accepts, after, status, |offered| + count - 1, offered + reply.messages[..count - 1], offeredNow);
    }
  }

  lemma FirstLength(h: History, after: string, n: nat, page: Reply)
    requires PieceOk(h, after, n, page)
    ensures |h.First(after, n + |page.messages|)| == n + |page.messages|
  {
    FirstIsPrefix(h, after, n, n + |page.messages|);
  }

  lemma Start(h: History, accepts: nat -> bool, after: string)
    ensures OnTrack(h, accepts, after, 0, after, Status(ResumeComplete, after, 0, 0, false), 0) && h.First(after, 0) == []
  {
  }

  /** Offers missed messages to the client. `offered` lists the messages handed to it. */
  method ReplayMissed(h: History, accepts: nat -> bool, after: string)
    returns (status: Status, offered: seq<Message>)
    requires h.Valid()
    ensures Outcome(h, accepts, after, status, offered)
  {
    hide Outcome, NoFaults, Takes, MaxSeq, LastId, CursorAt, History.IndexFrom, History.Get, History.First;
    Start(h, accepts, after);
    status := Status(ResumeComplete, after, 0, 0, false);
    offered := [];
    var cursor := after;
    var calls: nat := 0;
    while status.recovered < MAX_MESSAGES
      invariant OnTrack(h, accepts, after, calls, cursor, status, |offered|)
      invariant offered == h.First(after, |offered|)
      decreases MAX_MESSAGES - status.recovered
    {
      CallCount(calls, h.Missed(after));
      var reply := ReadPage(h, accepts, after, calls, cursor, status, |offered|);
      if !reply.Page? {
        status := status.(kind := ErrorOf(reply));
        return;
      }
      status, offered := OfferReply(h, accepts, after, reply, status, offered);
      if !status.kind.ResumeComplete? { return; }
      if !reply.hasMore {
        Completed(h, accepts, after, calls + 1, |offered|);
        return;
      }
      cursor := reply.nextCursor;
      if cursor == "" {
        status := status.(kind := ResumeError("missing resume cursor"));
        return;
      }
      calls := calls + 1;
    }
    Completed(h, accepts, after, calls, MAX_MESSAGES);
    status := status.(truncated := true);
  }
}
