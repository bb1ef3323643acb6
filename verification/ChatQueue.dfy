/** What reaches the wire: the writer takes what was placed, in order and unchanged; control
    payloads are those sent; and a closed client keeps its first reason. */
module ChatQueue {
  import opened Wrappers
  import opened ChatMessages
  import opened ChatClient
  import opened ChatClientRuns

  function Payloads(items: seq<Item>): seq<Message> {
    seq(|items|, i requires 0 <= i < |items| => items[i].payload)
  }

  /** What the writer has taken, followed by what waits on the queue, is what was placed. */
  ghost predicate QueueOk(s: State) {
    s.taken + s.send == Payloads(s.placed)
  }

  lemma PayloadsSnoc(items: seq<Item>, x: Item)
    ensures Payloads(items + [x]) == Payloads(items) + [x.payload]
  {
  }

  lemma SendKeepsQueue(s: State, item: Item)
    requires QueueOk(s)
    ensures QueueOk(EnqueueStep(s, item).0) && QueueOk(SendAndRemember(s, item).0)
  {
    PayloadsSnoc(s.placed, item);
    assert s.taken + (s.send + [item.payload]) == (s.taken + s.send) + [item.payload];
    RememberKeeps(EnqueueStep(s, item).0, item.messageId);
    hide Payloads, RememberStep;
  }

  lemma QueueStep(m: Machine, e: Event)
    requires Enabled(m, e) && QueueOk(m.s)
    ensures QueueOk(Next(m, e).0.s)
  {
    hide Payloads, SendAndRemember, RememberStep;
    match e
    case Chat(id, payload, lessonSeq) =>
      SendKeepsQueue(m.s, Item(Live, id, payload));
      RememberKeeps(m.s.(pendingLive := m.s.pendingLive + [Delivery(id, lessonSeq, payload)]), id);
    case Replay(id, payload) => SendKeepsQueue(m.s, Item(Replayed, id, payload));
    case Send(payload) => SendKeepsQueue(m.s, Item(Control, "", payload));
    case FlushNext =>
      var d := m.s.pendingLive[m.flush.next];
      SendKeepsQueue(m.s, Item(Flushed, d.messageId, d.payload));
    case WriterTake => assert (m.s.taken + [m.s.send[0]]) + m.s.send[1..] == m.s.taken + m.s.send;
    case _ =>
  }

  /** MAIN RESULT: over every run the payloads the writer has taken, followed by those still on
      the queue, are the payloads placed, in that order and unchanged. */
  lemma {:induction false} TakenIsPlaced(ms: seq<Machine>, es: seq<Event>)
    requires IsRun(ms, es)
    ensures QueueOk(ms[|es|].s)
  {
    if es != [] {
      var k := |es| - 1;
      assert IsRun(ms[..k + 1], es[..k]);
      TakenIsPlaced(ms[..k + 1], es[..k]);
      QueueStep(ms[k], es[k]);
    }
  }

  // ----------------------------------------------------------------- one call

  /** An enqueue is refused exactly by a closed client and by a full queue; otherwise the payload
      is the last on the queue. */
  lemma EnqueueExactly(s: State, item: Item)
    ensures var (t, ok) := EnqueueStep(s, item);
            && (ok <==> !s.closed && |s.send| < s.cfg.sendQueueSize)
            && t == if ok then s.(send := s.send + [item.payload], placed := s.placed + [item]) else s
  {
  }

  /** The window grows by one id at most, and a non-blank one is in it afterwards. */
  lemma RememberedIsSeen(s: State, id: string)
    requires WindowOk(s) && id != ""
    ensures id in RememberStep(s, id).seen
  {
    RememberWindow(s, id);
    var t := RememberStep(s, id);
    if id !in s.seen {
      assert t.seenOrder[|t.seenOrder| - 1] == id;
    }
  }

  /** A chat call is refused exactly if the id is new and there is no room: in the buffer while
      resuming, on the queue of an open client otherwise. A refusal changes nothing. */
  lemma ChatRefusedIff(s: State, id: string, payload: Message, lessonSeq: int)
    ensures var (t, ok) := EnqueueChatStep(s, id, payload, lessonSeq);
            && (!ok <==>
                  && (id == "" || id !in s.seen)
                  && (if s.resuming then |s.pendingLive| >= s.cfg.sendQueueSize else s.closed || |s.send| >= s.cfg.sendQueueSize))
            && (!ok ==> t == s)
  {
  }

  /** An accepted call puts the message in exactly one place: a known id nowhere, any other
      behind what is held while resuming, and behind what is queued otherwise. */
  lemma ChatPlaces(s: State, id: string, payload: Message, lessonSeq: int)
    requires EnqueueChatStep(s, id, payload, lessonSeq).1
    ensures var t := EnqueueChatStep(s, id, payload, lessonSeq).0;
            var isNew := id == "" || id !in s.seen;
            && t.send == s.send + (if isNew && !s.resuming then [payload] else [])
            && t.pendingLive == s.pendingLive + (if isNew && s.resuming then [Delivery(id, lessonSeq, payload)] else [])
            && t.resuming == s.resuming && t.closed == s.closed && t.taken == s.taken
  {
    RememberKeeps(s.(pendingLive := s.pendingLive + [Delivery(id, lessonSeq, payload)]), id);
    RememberKeeps(EnqueueStep(s, Item(Live, id, payload)).0, id);
    hide RememberStep;
  }

  lemma ReplayRefusedIff(s: State, id: string, payload: Message)
    ensures var (t, ok) := EnqueueReplayStep(s, id, payload);
            && (!ok <==> (id == "" || id !in s.seen) && (s.closed || |s.send| >= s.cfg.sendQueueSize))
            && (!ok ==> t == s)
            && (ok ==> t.send == s.send + (if id == "" || id !in s.seen then [payload] else []) && t.pendingLive == s.pendingLive)
  {
    RememberKeeps(EnqueueStep(s, Item(Replayed, id, payload)).0, id);
    hide RememberStep;
  }

  /** Whatever was accepted under an id, by either call, the next call under it changes nothing
      and reports success. */
  lemma AcceptedIsSuppressed(s: State, id: string, first: Message, again: Message, lessonSeq: int, replayed: bool)
    requires WindowOk(s) && id != ""
    requires var r := if replayed then EnqueueReplayStep(s, id, first) else EnqueueChatStep(s, id, first, lessonSeq); r.1
    ensures var t := (if replayed then EnqueueReplayStep(s, id, first) else EnqueueChatStep(s, id, first, lessonSeq)).0;
            EnqueueChatStep(t, id, again, lessonSeq) == (t, true) && EnqueueReplayStep(t, id, again) == (t, true)
  {
    if id !in s.seen {
      SeenAfter(s.(pendingLive := s.pendingLive + [Delivery(id, lessonSeq, first)]), id);
      SeenAfter(EnqueueStep(s, Item(Live, id, first)).0, id);
      SeenAfter(EnqueueStep(s, Item(Replayed, id, first)).0, id);
    }
    hide RememberStep, WindowOk;
  }

  lemma SeenAfter(s: State, id: string)
    requires WindowOk(s) && id != ""
    ensures id in RememberStep(s, id).seen
  {
    RememberedIsSeen(s, id);
  }

  /** Nor is a message that the flush has just sent sent again, even if the window had forgotten
      its id in the meantime. */
  lemma FlushedIsSuppressed(m: Machine, again: Message, lessonSeq: int)
    requires Inv(m) && Enabled(m, FlushNext) && m.s.pendingLive[m.flush.next].messageId != "" && Next(m, FlushNext).1
    ensures var t, id := Next(m, FlushNext).0.s, m.s.pendingLive[m.flush.next].messageId;
            EnqueueChatStep(t, id, again, lessonSeq) == (t, true) && EnqueueReplayStep(t, id, again) == (t, true)
  {
    var d := m.s.pendingLive[m.flush.next];
    SeenAfter(EnqueueStep(m.s, Item(Flushed, d.messageId, d.payload)).0, d.messageId);
    hide RememberStep, WindowOk;
  }

  // ------------------------------------------------------------- after the resume

  lemma {:induction false} FlushKeeps(s: State, i: nat)
    requires i <= |s.pendingLive|
    ensures var t := FlushFrom(s, i).0;
            && t.cfg == s.cfg && t.closed == s.closed && t.reason == s.reason && t.resuming == s.resuming
            && t.writerExited == s.writerExited && t.taken == s.taken
            && (QueueOk(s) ==> QueueOk(t))
    decreases |s.pendingLive| - i
  {
    hide QueueOk, RememberStep;
    if i < |s.pendingLive| {
      var d := s.pendingLive[i];
      var item := Item(Flushed, d.messageId, d.payload);
      if QueueOk(s) { SendKeepsQueue(s, item); }
      RememberKeeps(EnqueueStep(s, item).0, item.messageId);
      var (t, ok) := FlushOne(s, i);
      if ok { FlushKeeps(t, i + 1); }
    } else {
      if QueueOk(s) { QueueIgnoresHeld(s); }
    }
  }

  lemma QueueIgnoresHeld(s: State)
    requires QueueOk(s)
    ensures QueueOk(s.(pendingLive := [])) && QueueOk(s.(resuming := false))
  {
  }

  /** The FinishResume call is the steps of the flush with nothing in between, its first step,
      which ends resuming, included. */
  lemma FinishResumeIsFlushSteps(m: Machine)
    requires m.flush.NotStarted?
    ensures var n := FlushAlone(Next(m, FlushBegin).0);
            && n.s == FinishResumeStep(m.s).0
            && (n.flush.Succeeded? <==> FinishResumeStep(m.s).1) && (n.flush.Failed? <==> !FinishResumeStep(m.s).1)
            && n.accepted == m.accepted
  {
    FlushAloneIsFinishResume(Next(m, FlushBegin).0);
    FlushEnds(Next(m, FlushBegin).0);
    hide FlushAlone, FlushFrom;
  }

  lemma {:induction false} FlushEnds(m: Machine)
    requires m.flush.Running? && m.flush.next <= |m.s.pendingLive|
    ensures var n := FlushAlone(m);
            (n.flush.Succeeded? || n.flush.Failed?) && n.accepted == m.accepted
    decreases |m.s.pendingLive| - m.flush.next
  {
    if m.flush.next < |m.s.pendingLive| {
      FlushOneExactly(m.s, m.flush.next);
      var n := Next(m, FlushNext).0;
      if n.flush.Running? { FlushEnds(n); }
    }
  }

  /** After FinishResume, whether it succeeded or not, the client is not resuming: a new live
      message goes on the queue at once if there is room, and none is held back. */
  lemma FinishResumeEndsResuming(s: State, id: string, payload: Message, lessonSeq: int)
    ensures var t := FinishResumeStep(s).0;
            && !t.resuming && t.closed == s.closed && t.taken == s.taken && (QueueOk(s) ==> QueueOk(t))
            && var (u, ok) := EnqueueChatStep(t, id, payload, lessonSeq);
               && u.pendingLive == t.pendingLive
               && ((id == "" || id !in t.seen) && Room(t) > 0 ==> ok && u.send == t.send + [payload])
  {
    if QueueOk(s) { QueueIgnoresHeld(s); }
    hide QueueOk;
    FlushKeeps(s.(resuming := false), 0);
    var t := FinishResumeStep(s).0;
    hide FinishResumeStep, RememberStep;
    RememberKeeps(EnqueueStep(t, Item(Live, id, payload)).0, id);
  }

  /** The same over every run: once the flush has begun nothing is ever held back again, and a
      new live message goes on the queue if there is room. */
  lemma LiveAfterResume(ms: seq<Machine>, es: seq<Event>, id: string, payload: Message, lessonSeq: int)
    requires IsRun(ms, es) && (ms[|es|].flush.Succeeded? || ms[|es|].flush.Failed?)
    ensures var m := ms[|es|];
            var (n, ok) := Next(m, Chat(id, payload, lessonSeq));
            && !m.s.resuming && n.s.pendingLive == m.s.pendingLive
            && (ok <==> (id != "" && id in m.s.seen) || Room(m.s) > 0)
            && n.s.send == m.s.send + (if ok && (id == "" || id !in m.s.seen) then [payload] else [])
  {
    RunInv(ms, es);
    var m := ms[|es|];
    assert Inv(m);
    RememberKeeps(EnqueueStep(m.s, Item(Live, id, payload)).0, id);
    hide IsRun, Inv, RememberStep;
  }

  /** A new client starts as it was asked to: resuming, it holds live messages back; otherwise
      it sends them at once. */
  lemma FreshClient(cfg: Config, resuming: bool, id: string, payload: Message, lessonSeq: int)
    ensures var (t, ok) := EnqueueChatStep(Initial(cfg, resuming), id, payload, lessonSeq);
            && ok
            && t.send == (if resuming then [] else [payload])
            && t.pendingLive == (if resuming then [Delivery(id, lessonSeq, payload)] else [])
  {
    ChatRefusedIff(Initial(cfg, resuming), id, payload, lessonSeq);
    ChatPlaces(Initial(cfg, resuming), id, payload, lessonSeq);
  }

  // ---------------------------------------------------------- control payloads, close

  function Controls(items: seq<Item>): seq<Message> {
    if items == [] then [] else
    var x := items[|items| - 1];
    Controls(items[..|items| - 1]) + (if x.origin.Control? then [x.payload] else [])
  }

  /** The control payloads whose Enqueue returned true. */
  ghost function SentControls(ms: seq<Machine>, es: seq<Event>): seq<Message>
    requires |ms| == |es| + 1 && forall i :: 0 <= i < |es| ==> Enabled(ms[i], es[i])
  {
    if es == [] then [] else
    var k := |es| - 1;
    SentControls(ms[..k + 1], es[..k]) + (if es[k].Send? && Next(ms[k], es[k]).1 then [es[k].payload] else [])
  }

  lemma ControlsSnoc(items: seq<Item>, x: Item)
    ensures Controls(items + [x]) == Controls(items) + (if x.origin.Control? then [x.payload] else [])
  {
    assert (items + [x])[..|items|] == items;
  }

  lemma SendControls(s: State, item: Item)
    ensures var (t, ok) := SendAndRemember(s, item);
            Controls(t.placed) == Controls(s.placed) + (if ok && item.origin.Control? then [item.payload] else [])
  {
    ControlsSnoc(s.placed, item);
    RememberKeeps(EnqueueStep(s, item).0, item.messageId);
    hide Controls, RememberStep;
  }

  lemma ControlStep(m: Machine, e: Event)
    requires Enabled(m, e)
    ensures var (n, ok) := Next(m, e);
            Controls(n.s.placed) == Controls(m.s.placed) + (if e.Send? && ok then [e.payload] else [])
  {
    hide Controls, SendAndRemember, RememberStep;
    match e
    case Chat(id, payload, lessonSeq) =>
      SendControls(m.s, Item(Live, id, payload));
      RememberKeeps(m.s.(pendingLive := m.s.pendingLive + [Delivery(id, lessonSeq, payload)]), id);
    case Replay(id, payload) => SendControls(m.s, Item(Replayed, id, payload));
    case Send(payload) => ControlsSnoc(m.s.placed, Item(Control, "", payload));
    case FlushNext =>
      var d := m.s.pendingLive[m.flush.next];
      SendControls(m.s, Item(Flushed, d.messageId, d.payload));
    case _ =>
  }

  /** Over every run the control payloads placed are those whose Enqueue returned true, in
      order; it returned true exactly if the client was open and the queue had room. */
  lemma {:induction false} ControlsInOrder(ms: seq<Machine>, es: seq<Event>)
    requires IsRun(ms, es)
    ensures Controls(ms[|es|].s.placed) == SentControls(ms, es)
    ensures forall i :: 0 <= i < |es| && es[i].Send? ==>
      (Next(ms[i], es[i]).1 <==> !ms[i].s.closed && |ms[i].s.send| < ms[i].s.cfg.sendQueueSize)
  {
    if es != [] {
      var k := |es| - 1;
      assert IsRun(ms[..k + 1], es[..k]);
      ControlsInOrder(ms[..k + 1], es[..k]);
      ControlStep(ms[k], es[k]);
    }
  }

  /** The reason of the first close, if there was one. */
  function FirstClose(es: seq<Event>): Option<string> {
    if es == [] then None else
    var first, e := FirstClose(es[..|es| - 1]), es[|es| - 1];
    if first.None? && e.Close? then Some(e.reason) else first
  }

  /** Over every run the client is closed exactly if some step closed it, the reason is that of
      the first close, and a close reports true exactly if it is the first. */
  lemma {:induction false} FirstCloseCounts(ms: seq<Machine>, es: seq<Event>, reason: string)
    requires IsRun(ms, es)
    ensures var first := FirstClose(es);
            && (ms[|es|].s.closed <==> first.Some?)
            && (first.Some? ==> ms[|es|].s.reason == first.value)
            && (Next(ms[|es|], Close(reason)).1 <==> first.None?)
  {
    CloseFacts(ms[|es|], Close(reason));
    if es != [] {
      hide Next, Enabled;
      var k := |es| - 1;
      assert IsRun(ms[..k + 1], es[..k]);
      FirstCloseCounts(ms[..k + 1], es[..k], reason);
      CloseFacts(ms[k], es[k]);
    }
  }

  lemma CloseFacts(m: Machine, e: Event)
    requires Enabled(m, e)
    ensures var (n, ok) := Next(m, e);
            && n.s.closed == (m.s.closed || e.Close?)
            && n.s.reason == (if e.Close? && !m.s.closed then e.reason else m.s.reason)
            && (e.Close? ==> ok == !m.s.closed)
  {
    hide RememberStep;
    match e
    case Chat(id, payload, lessonSeq) =>
      RememberKeeps(m.s.(pendingLive := m.s.pendingLive + [Delivery(id, lessonSeq, payload)]), id);
      RememberKeeps(EnqueueStep(m.s, Item(Live, id, payload)).0, id);
    case Replay(id, payload) => RememberKeeps(EnqueueStep(m.s, Item(Replayed, id, payload)).0, id);
    case FlushNext =>
      var d := m.s.pendingLive[m.flush.next];
      RememberKeeps(EnqueueStep(m.s, Item(Flushed, d.messageId, d.payload)).0, d.messageId);
    case _ =>
  }
}
