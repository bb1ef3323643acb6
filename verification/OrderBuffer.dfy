/** The browser-side ordering buffer (frontend/chat_order_buffer.js). */
module OrderBuffer {
  import opened Wrappers
  import opened ChatMessages
  import opened Sets

  /** What one call of `push` does: `true`, `false`, or the thrown "buffer full" error. */
  datatype PushResult = Accepted | Ignored | Full

  /** The fields of a buffer, with the calls made so far to its two callbacks. */
  datatype State = State(
    nextSeq: int,
    maxPending: int,
    pending: map<int, Message>,
    seen: set<string>,
    gapRequested: bool,
    shown: seq<Message>,
    gaps: seq<(int, int)>)

  function Initial(nextSeq: int, maxPending: int): State {
    State(nextSeq, maxPending, map[], {}, false, [], [])
  }

  // ---------------------------------------------------------------- operations

  function Show(s: State, m: Message): State {
    s.(seen := s.seen + {m.messageId}, shown := s.shown + [m], nextSeq := s.nextSeq + 1)
  }

  /** Releases the run of held messages that starts at `nextSeq`. */
  function Drain(s: State): State
    decreases |s.pending|
  {
    if s.nextSeq in s.pending then
      Drain(Show(s.(pending := s.pending - {s.nextSeq}), s.pending[s.nextSeq]))
    else s
  }

  function Emit(s: State, m: Message): State {
    var t := Drain(Show(s, m));
    if |t.pending| == 0 then t.(gapRequested := false) else t
  }

  function Hold(s: State, m: Message): State {
    var t := s.(pending := s.pending[m.lessonSeq := m]);
    if s.gapRequested then t
    else t.(gapRequested := true, gaps := t.gaps + [(s.nextSeq, m.lessonSeq - 1)])
  }

  function PushStep(s: State, incoming: Option<Message>): (State, PushResult) {
    if incoming.None? || incoming.value.messageId == "" then (s, Ignored) else
    var m := incoming.value;
    if m.messageId in s.seen then (s, Ignored)
    else if m.lessonSeq <= 0 then
      (s.(seen := s.seen + {m.messageId}, shown := s.shown + [m]), Accepted)
    else
      var s := if s.nextSeq == 0 then s.(nextSeq := m.lessonSeq) else s;
      if m.lessonSeq < s.nextSeq then (s, Ignored)
      else if m.lessonSeq in s.pending then (s, Ignored)
      else if m.lessonSeq > s.nextSeq then
        if |s.pending| >= s.maxPending then (s, Full) else (Hold(s, m), Accepted)
      else (Emit(s, m), Accepted)
  }

  lemma DrainOne(s: State)
    ensures s.nextSeq in s.pending ==>
      Drain(s) == Drain(Show(s.(pending := s.pending - {s.nextSeq}), s.pending[s.nextSeq]))
    ensures s.nextSeq !in s.pending ==> Drain(s) == s
  {
  }

  /** The object itself; the callbacks append to `shown` and `gaps`. */
  class ChatOrderBuffer {
    var nextSeq: int
    var maxPending: int
    var pending: map<int, Message>
    var seen: set<string>
    var gapRequested: bool
    var shown: seq<Message>
    var gaps: seq<(int, int)>

    function View(): State
      reads this
    {
      State(nextSeq, maxPending, pending, seen, gapRequested, shown, gaps)
    }

    constructor (nextSeq: int, maxPending: int)
      ensures View() == Initial(nextSeq, maxPending)
    {
      this.nextSeq, this.maxPending := nextSeq, maxPending;
      pending, seen, gapRequested, shown, gaps := map[], {}, false, [], [];
    }

    method OnMessage(m: Message)
      modifies this`shown
      ensures shown == old(shown) + [m]
    {
      shown := shown + [m];
    }

    method OnGap(from: int, to: int)
      modifies this`gaps
      ensures gaps == old(gaps) + [(from, to)]
    {
      gaps := gaps + [(from, to)];
    }

    method Push(message: Option<Message>) returns (r: PushResult)
      modifies this
      ensures (View(), r) == PushStep(old(View()), message)
    {
      if message.None? || message.value.messageId == "" { return Ignored; }
      var m := message.value;
      if m.messageId in seen { return Ignored; }
      var seqNo := m.lessonSeq;
      if seqNo <= 0 {
        seen := seen + {m.messageId};
        OnMessage(m);
        return Accepted;
      }
      if nextSeq == 0 { nextSeq := seqNo; }
      if seqNo < nextSeq { return Ignored; }
      if seqNo in pending { return Ignored; }
      if seqNo > nextSeq {
        if |pending| >= maxPending { return Full; }
        pending := pending[seqNo := m];
        if !gapRequested {
          gapRequested := true;
          OnGap(nextSeq, seqNo - 1);
        }
        return Accepted;
      }
      EmitAndAdvance(m);
      return Accepted;
    }

    method EmitAndAdvance(m: Message)
      modifies this
      ensures View() == Emit(old(View()), m)
    {
      hide Drain;
      seen := seen + {m.messageId};
      OnMessage(m);
      nextSeq := nextSeq + 1;
      while nextSeq in pending
        invariant Drain(View()) == Drain(Show(old(View()), m))
        decreases |pending|
      {
        DrainOne(View());
        var next := pending[nextSeq];
        pending := pending - {nextSeq};
        seen := seen + {next.messageId};
        OnMessage(next);
        nextSeq := nextSeq + 1;
      }
      DrainOne(View());
      if |pending| == 0 { gapRequested := false; }
    }
  }

  // ------------------------------------------------- the set-based specification

  /** What the buffer is for, without any queue: which sequenced messages have been
      taken (first come, first served for a number) and which loose ones were shown. */
  datatype Spec = Spec(first: int, capacity: int, accepted: map<int, Message>, loose: seq<Message>)

  /** Every number from `first` up to (not including) `k` has been accepted. */
  predicate InOrder(sp: Spec, k: int) {
    forall j {:trigger j in sp.accepted} :: sp.first <= j < k ==> j in sp.accepted
  }

  /** The accepted numbers that still have a hole below them. */
  ghost function Held(sp: Spec): set<int> {
    set k | k in sp.accepted && !InOrder(sp, k)
  }

  ghost function SpecPush(sp: Spec, incoming: Option<Message>): (Spec, PushResult) {
    if incoming.None? || incoming.value.messageId == "" then (sp, Ignored) else
    var m := incoming.value;
    if m.lessonSeq <= 0 then
      if m.messageId in Ids(sp.loose) then (sp, Ignored)
      else (sp.(loose := sp.loose + [m]), Accepted)
    else if m.lessonSeq < sp.first || m.lessonSeq in sp.accepted then (sp, Ignored)
    else if !InOrder(sp, m.lessonSeq) && |Held(sp)| >= sp.capacity then (sp, Full)
    else (sp.(accepted := sp.accepted[m.lessonSeq := m]), Accepted)
  }

  /** The accepted messages lo, lo+1, ..., hi-1 in order. */
  function Segment(accepted: map<int, Message>, lo: int, hi: int): seq<Message>
    requires forall k :: lo <= k < hi ==> k in accepted
    decreases hi - lo
  {
    if hi <= lo then [] else Segment(accepted, lo, hi - 1) + [accepted[hi - 1]]
  }

  function Sequenced(ms: seq<Message>): seq<Message> {
    if ms == [] then [] else
    Sequenced(ms[..|ms| - 1]) + (if ms[|ms| - 1].lessonSeq > 0 then [ms[|ms| - 1]] else [])
  }

  function Loose(ms: seq<Message>): seq<Message> {
    if ms == [] then [] else
    Loose(ms[..|ms| - 1]) + (if ms[|ms| - 1].lessonSeq > 0 then [] else [ms[|ms| - 1]])
  }

  function Above(accepted: map<int, Message>, k: int): map<int, Message> {
    map j | j in accepted && j > k :: accepted[j]
  }

  /** The output so far is first .. nextSeq-1, all of it accepted, plus the loose messages. */
  ghost predicate Emitted(sp: Spec, s: State) {
    && 0 < sp.first <= s.nextSeq
    && (forall k :: sp.first <= k < s.nextSeq ==> k in sp.accepted)
    && (forall k :: k in sp.accepted ==> sp.first <= k && sp.accepted[k].lessonSeq == k)
    && Sequenced(s.shown) == Segment(sp.accepted, sp.first, s.nextSeq)
    && Loose(s.shown) == sp.loose
    && s.seen == Ids(s.shown)
  }

  /** Besides, nextSeq is the least number not accepted, and exactly the accepted numbers
      above it are held. */
  ghost predicate Core(sp: Spec, s: State) {
    && Emitted(sp, s)
    && s.nextSeq !in sp.accepted
    && s.pending == Above(sp.accepted, s.nextSeq)
  }

  /** The buffer state is the set-based state; holding stays within the capacity, and a
      gap request is outstanding exactly while something is held. */
  ghost predicate Refines(sp: Spec, s: State) {
    && Core(sp, s)
    && s.maxPending == sp.capacity
    && (|s.pending| <= sp.capacity || s.pending == map[])
    && (s.gapRequested <==> s.pending != map[])
  }

  /** Everything the buffer has taken. */
  ghost function Taken(sp: Spec): set<Message> {
    sp.accepted.Values + (set m | m in sp.loose)
  }

  // ------------------------------------------------------------ refinement proof

  lemma ShownGrows(xs: seq<Message>, m: Message)
    ensures Sequenced(xs + [m]) == Sequenced(xs) + (if m.lessonSeq > 0 then [m] else [])
    ensures Loose(xs + [m]) == Loose(xs) + (if m.lessonSeq > 0 then [] else [m])
    ensures Ids(xs + [m]) == Ids(xs) + {m.messageId}
  {
    assert (xs + [m])[..|xs|] == xs;
    assert forall x :: x in xs + [m] <==> x in xs || x == m;
  }

  lemma {:induction false} SegmentFrame(a: map<int, Message>, b: map<int, Message>, lo: int, hi: int)
    requires forall k :: lo <= k < hi ==> k in a && k in b && a[k] == b[k]
    ensures Segment(a, lo, hi) == Segment(b, lo, hi)
    decreases hi - lo
  {
    if lo < hi { SegmentFrame(a, b, lo, hi - 1); }
  }

  lemma {:induction false} ShownSplit(xs: seq<Message>, m: Message)
    ensures m in xs <==> m in Sequenced(xs) || m in Loose(xs)
    ensures m in Sequenced(xs) ==> m.lessonSeq > 0
    ensures m in Loose(xs) ==> m.lessonSeq <= 0
  {
    if xs != [] {
      ShownSplit(xs[..|xs| - 1], m);
      assert xs == xs[..|xs| - 1] + [xs[|xs| - 1]];
    }
  }

  lemma {:induction false} SegmentElements(a: map<int, Message>, lo: int, hi: int, m: Message)
    requires forall k :: lo <= k < hi ==> k in a
    ensures m in Segment(a, lo, hi) <==> exists k :: lo <= k < hi && a[k] == m
    decreases hi - lo
  {
    if lo < hi { SegmentElements(a, lo, hi - 1, m); }
  }

  lemma ShowNext(sp: Spec, s: State, m: Message)
    requires Emitted(sp, s) && s.nextSeq in sp.accepted && sp.accepted[s.nextSeq] == m
    ensures Emitted(sp, Show(s, m))
  {
    ShownGrows(s.shown, m);
  }

  /** Draining turns "everything from nextSeq on is held" into the refinement relation. */
  lemma {:induction false} DrainRefines(sp: Spec, s: State)
    requires Emitted(sp, s) && s.pending == Above(sp.accepted, s.nextSeq - 1)
    ensures var t := Drain(s);
            && Core(sp, t)
            && t.pending.Keys <= s.pending.Keys
            && t.maxPending == s.maxPending && t.gapRequested == s.gapRequested && t.gaps == s.gaps
    decreases |s.pending|
  {
    if s.nextSeq in s.pending {
      var t := Show(s.(pending := s.pending - {s.nextSeq}), s.pending[s.nextSeq]);
      ShowNext(sp, s.(pending := s.pending - {s.nextSeq}), s.pending[s.nextSeq]);
      assert t.pending == Above(sp.accepted, t.nextSeq - 1);
      DrainRefines(sp, t);
    } else {
      assert s.pending == Above(sp.accepted, s.nextSeq);
    }
  }

  /** What is held is exactly what has a hole below it. */
  lemma HeldIsPending(sp: Spec, s: State)
    requires Core(sp, s)
    ensures Held(sp) == s.pending.Keys
    ensures forall k :: k >= sp.first && k !in sp.accepted ==> (InOrder(sp, k) <==> k == s.nextSeq)
  {
    forall k | k > s.nextSeq ensures !InOrder(sp, k) {
      assert s.nextSeq !in sp.accepted;
    }
  }

  /** A message the buffer took before has a number it will not take again. */
  lemma SeenMeansTaken(sp: Spec, s: State, m: Message)
    requires Emitted(sp, s) && IdFixesSeq(Taken(sp) + {m})
    ensures m.messageId in s.seen && m.lessonSeq > 0 ==> sp.first <= m.lessonSeq < s.nextSeq
    ensures m.lessonSeq <= 0 ==> (m.messageId in s.seen <==> m.messageId in Ids(sp.loose))
  {
    if m.messageId in s.seen {
      var x :| x in s.shown && x.messageId == m.messageId;
      ShownSplit(s.shown, x);
      SegmentElements(sp.accepted, sp.first, s.nextSeq, x);
      if x in Sequenced(s.shown) {
        var k :| sp.first <= k < s.nextSeq && sp.accepted[k] == x;
      }
      assert x in Taken(sp);
    }
    if m.messageId in Ids(sp.loose) {
      var x :| x in sp.loose && x.messageId == m.messageId;
      ShownSplit(s.shown, x);
    }
  }

  lemma EmitRefines(sp: Spec, s: State, m: Message)
    requires Refines(sp, s) && m.lessonSeq == s.nextSeq
    ensures Refines(sp.(accepted := sp.accepted[m.lessonSeq := m]), Emit(s, m))
  {
    hide Drain, Segment, Sequenced, Loose;
    var sq := sp.(accepted := sp.accepted[m.lessonSeq := m]);
    SegmentFrame(sp.accepted, sq.accepted, sp.first, s.nextSeq);
    ShowNext(sq, s, m);
    assert Show(s, m).pending == Above(sq.accepted, s.nextSeq);
    DrainRefines(sq, Show(s, m));
    var t := Drain(Show(s, m));
    SubsetSize(t.pending.Keys, s.pending.Keys);
    assert |t.pending| == |t.pending.Keys| && |s.pending| == |s.pending.Keys|;
  }

  lemma HoldRefines(sp: Spec, s: State, m: Message)
    requires Refines(sp, s) && m.lessonSeq > s.nextSeq && m.lessonSeq !in s.pending
    requires |s.pending| < s.maxPending
    ensures Refines(sp.(accepted := sp.accepted[m.lessonSeq := m]), Hold(s, m))
  {
    var sq := sp.(accepted := sp.accepted[m.lessonSeq := m]);
    SegmentFrame(sp.accepted, sq.accepted, sp.first, s.nextSeq);
    assert Hold(s, m).pending == Above(sq.accepted, s.nextSeq);
  }

  lemma LooseRefines(sp: Spec, s: State, m: Message)
    requires Refines(sp, s) && m.lessonSeq <= 0
    ensures Refines(sp.(loose := sp.loose + [m]), s.(seen := s.seen + {m.messageId}, shown := s.shown + [m]))
  {
    ShownGrows(s.shown, m);
  }

  /** Where the number of an unseen message stands, in both vocabularies. */
  lemma WhereItStands(sp: Spec, s: State, k: int)
    requires Refines(sp, s)
    ensures k < s.nextSeq || k in s.pending <==> k < sp.first || k in sp.accepted
    ensures k >= s.nextSeq && k !in s.pending ==> (InOrder(sp, k) <==> k == s.nextSeq)
    ensures |Held(sp)| == |s.pending| && sp.capacity == s.maxPending
  {
    HeldIsPending(sp, s);
    assert |s.pending| == |s.pending.Keys|;
  }

  /** One call of `push` is one step of the specification, with the same result. */
  lemma PushRefines(sp: Spec, s: State, incoming: Option<Message>)
    requires Refines(sp, s)
    requires incoming.Some? && incoming.value.messageId != "" ==> IdFixesSeq(Taken(sp) + {incoming.value})
    ensures PushStep(s, incoming).1 == SpecPush(sp, incoming).1
    ensures Refines(SpecPush(sp, incoming).0, PushStep(s, incoming).0)
  {
    if incoming.Some? && incoming.value.messageId != "" {
      var m := incoming.value;
      SeenMeansTaken(sp, s, m);
      if m.lessonSeq <= 0 {
        LooseRefines(sp, s, m);
      } else {
        WhereItStands(sp, s, m.lessonSeq);
        hide Refines, InOrder, Held, IdFixesSeq, Taken;
        if m.messageId in s.seen || m.lessonSeq < s.nextSeq || m.lessonSeq in s.pending {
          assert PushStep(s, incoming) == (s, Ignored);
        } else if m.lessonSeq == s.nextSeq {
          EmitRefines(sp, s, m);
        } else if |s.pending| < s.maxPending {
          HoldRefines(sp, s, m);
        }
      }
    }
  }
}
