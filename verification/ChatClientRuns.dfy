/** One client under every interleaving of its critical sections: replay and live calls,
    the flush one message at a time, the writer, and close. */
module ChatClientRuns {
  import opened ChatMessages
  import opened ChatClient
  import opened Sets

  /** Where the one FinishResume call of a session stands. While it runs it holds the
      delivery lock; `next` is the index of the next held-back message. */
  datatype Flush = NotStarted | Running(next: nat) | Succeeded | Failed(at: nat)

  /** `accepted`: the non-blank ids for which EnqueueChat or EnqueueReplay returned true. */
  datatype Machine = Machine(s: State, flush: Flush, accepted: set<string>)

  datatype Event =
    | Chat(id: string, payload: Message, lessonSeq: int)
    | Replay(id: string, payload: Message)
    | Send(payload: Message)
    | FlushBegin
    | FlushNext
    | FlushEnd
    | Close(reason: string)
    | WriterTake
    | WriterExit

  function Start(cfg: Config, resuming: bool): Machine {
    Machine(Initial(cfg, resuming), NotStarted, {})
  }

  /** EnqueueChat and EnqueueReplay wait for the delivery lock; the flush runs once; the
      writer leaves only after close. */
  predicate Enabled(m: Machine, e: Event) {
    match e
    case Chat(_, _, _) => !m.flush.Running?
    case Replay(_, _) => !m.flush.Running?
    case Send(_) => true
    case FlushBegin => m.flush.NotStarted?
    case FlushNext => m.flush.Running? && m.flush.next < |m.s.pendingLive|
    case FlushEnd => m.flush.Running? && m.flush.next == |m.s.pendingLive|
    case Close(_) => true
    case WriterTake => m.s.send != [] && !m.s.writerExited
    case WriterExit => m.s.closed && !m.s.writerExited
  }

  function Accept(m: Machine, id: string, r: (State, bool)): (Machine, bool) {
    (m.(s := r.0, accepted := if r.1 && id != "" then m.accepted + {id} else m.accepted), r.1)
  }

  /** One step and what the call returns (true for steps that return nothing). */
  function Next(m: Machine, e: Event): (Machine, bool)
    requires Enabled(m, e)
  {
    match e
    case Chat(id, payload, lessonSeq) => Accept(m, id, EnqueueChatStep(m.s, id, payload, lessonSeq))
    case Replay(id, payload) => Accept(m, id, EnqueueReplayStep(m.s, id, payload))
    case Send(payload) =>
      var (t, ok) := EnqueueStep(m.s, Item(Control, "", payload));
      (m.(s := t), ok)
    case FlushBegin => (m.(s := m.s.(resuming := false), flush := Running(0)), true)
    case FlushNext =>
      var (t, ok) := FlushOne(m.s, m.flush.next);
      (m.(s := t, flush := if ok then Running(m.flush.next + 1) else Failed(m.flush.next)), ok)
    case FlushEnd => (m.(s := m.s.(pendingLive := []), flush := Succeeded), true)
    case Close(reason) =>
      var (t, now) := CloseStep(m.s, reason);
      (m.(s := t), now)
    case WriterTake => (m.(s := m.s.(send := m.s.send[1..], taken := m.s.taken + [m.s.send[0]])), true)
    case WriterExit => (m.(s := m.s.(writerExited := true)), true)
  }

  /** A run: machine states linked by enabled steps, from a fresh client. */
  ghost predicate IsRun(ms: seq<Machine>, es: seq<Event>) {
    && |ms| == |es| + 1
    && ms[0] == Start(ms[0].s.cfg, ms[0].s.resuming)
    && forall i :: 0 <= i < |es| ==> Enabled(ms[i], es[i]) && ms[i + 1] == Next(ms[i], es[i]).0
  }

  /** Held-back messages that the flush has not placed. */
  function Unsent(m: Machine): seq<Delivery> {
    match m.flush
    case NotStarted => m.s.pendingLive
    case Running(i) => if i <= |m.s.pendingLive| then m.s.pendingLive[i..] else []
    case Succeeded => []
    case Failed(i) => if i <= |m.s.pendingLive| then m.s.pendingLive[i..] else []
  }

  // -------------------------------------------------------------------- invariants

  ghost predicate NoRepeats(xs: seq<string>) {
    forall i, j :: 0 <= i < j < |xs| ==> xs[i] != xs[j]
  }

  function Last(xs: seq<string>, n: int): seq<string> {
    if 0 <= n < |xs| then xs[|xs| - n..] else xs
  }

  /** The seen window is the last messageDedupSize ids remembered. */
  ghost predicate WindowOk(s: State) {
    && s.seenOrder == Last(s.remembered, s.cfg.messageDedupSize)
    && NoRepeats(s.seenOrder)
    && s.seen == Elems(s.seenOrder)
    && "" !in s.remembered
  }

  function PlacedIds(items: seq<Item>): set<string> {
    set x | x in items :: x.messageId
  }

  function DeliveryIds(ds: seq<Delivery>): set<string> {
    set d | d in ds :: d.messageId
  }

  ghost predicate Inv(m: Machine) {
    && WindowOk(m.s)
    && |m.s.send| <= m.s.cfg.sendQueueSize
    && |m.s.pendingLive| <= m.s.cfg.sendQueueSize
    && (m.flush.Running? ==> m.flush.next <= |m.s.pendingLive|)
    && (m.flush.Failed? ==> m.flush.at < |m.s.pendingLive|)
    && (m.flush.Succeeded? ==> m.s.pendingLive == [])
    && (m.s.resuming ==> m.flush.NotStarted?)
    && (!m.s.resuming && m.flush.NotStarted? ==> m.s.pendingLive == [])
    && (m.s.writerExited ==> m.s.closed)
    && Elems(m.s.remembered) == m.accepted
    && DeliveryIds(m.s.pendingLive) - {""} <= m.accepted
    && m.accepted <= PlacedIds(m.s.placed) + DeliveryIds(Unsent(m))
    && PlacedIds(m.s.placed) - {""} <= m.accepted
  }

  /** Remembering touches the window and nothing else. */
  lemma RememberKeeps(s: State, id: string)
    ensures var t := RememberStep(s, id);
            && t.cfg == s.cfg && t.send == s.send && t.placed == s.placed && t.pendingLive == s.pendingLive
            && t.closed == s.closed && t.resuming == s.resuming && t.writerExited == s.writerExited && t.reason == s.reason
            && t.taken == s.taken
  {
  }

  lemma LastSnoc(xs: seq<string>, x: string, n: int)
    requires n > 0
    ensures var w := Last(xs, n) + [x];
            Last(xs + [x], n) == (if |w| > n then w[|w| - n..] else w)
  {
  }

  lemma ElemsSnoc(xs: seq<string>, x: string)
    ensures Elems(xs + [x]) == Elems(xs) + {x}
  {
  }

  lemma DropOldest(order: seq<string>, k: nat)
    requires NoRepeats(order) && k <= |order|
    ensures NoRepeats(order[k..]) && Elems(order) - Elems(order[..k]) == Elems(order[k..])
  {
    assert order == order[..k] + order[k..];
    forall x | x in order[k..] ensures x !in order[..k] {
      var j :| k <= j < |order| && order[j] == x;
    }
  }

  /** Remembering keeps the window right: overflow drops the oldest id from list and set. */
  lemma RememberWindow(s: State, id: string)
    requires WindowOk(s)
    ensures WindowOk(RememberStep(s, id))
    ensures Elems(RememberStep(s, id).remembered) == Elems(s.remembered) + (if id == "" then {} else {id})
    ensures |s.seenOrder| <= s.cfg.messageDedupSize
  {
    if id == "" || id in s.seen {
    } else {
      NewIsLast(s.seenOrder, id);
      hide NoRepeats, Elems;
      LastSnoc(s.remembered, id, s.cfg.messageDedupSize);
      ElemsSnoc(s.remembered, id);
      ElemsSnoc(s.seenOrder, id);
      var order := s.seenOrder + [id];
      var overflow := |order| - s.cfg.messageDedupSize;
      if overflow > 0 { DropOldest(order, overflow); }
    }
    hide NoRepeats, Elems;
  }

  lemma NewIsLast(order: seq<string>, id: string)
    requires NoRepeats(order) && id !in order
    ensures NoRepeats(order + [id])
  {
  }

  lemma PlacedSnoc(items: seq<Item>, x: Item)
    ensures PlacedIds(items + [x]) == PlacedIds(items) + {x.messageId}
  {
  }

  lemma DeliverySnoc(ds: seq<Delivery>, d: Delivery)
    ensures DeliveryIds(ds + [d]) == DeliveryIds(ds) + {d.messageId}
  {
  }

  /** What putting one entry on the queue and remembering it does to the invariant's parts. */
  lemma SendFacts(s: State, item: Item)
    requires WindowOk(s) && |s.send| <= s.cfg.sendQueueSize
    ensures var (t, ok) := SendAndRemember(s, item);
            && WindowOk(t) && |t.send| <= t.cfg.sendQueueSize
            && t == s.(send := t.send, placed := t.placed, seen := t.seen, seenOrder := t.seenOrder, remembered := t.remembered)
            && (!ok ==> t == s)
            && (ok ==> Elems(t.remembered) == Elems(s.remembered) + ({item.messageId} - {""}))
            && (ok ==> PlacedIds(t.placed) == PlacedIds(s.placed) + {item.messageId})
  {
    var (u, ok) := EnqueueStep(s, item);
    if ok {
      PlacedSnoc(s.placed, item);
      assert WindowOk(u);
      hide WindowOk, Elems, PlacedIds;
      RememberWindow(u, item.messageId);
      RememberKeeps(u, item.messageId);
      hide RememberStep;
    } else {
      hide WindowOk, Elems, PlacedIds, RememberStep;
    }
  }

  lemma DuplicateIsAccepted(m: Machine, id: string)
    requires Inv(m) && Duplicate(m.s, id)
    ensures id in m.accepted
  {
    var i :| 0 <= i < |m.s.seenOrder| && m.s.seenOrder[i] == id;
  }

  /** A duplicate changes nothing. */
  lemma DuplicateKeepsInv(m: Machine, e: Event)
    requires Inv(m) && Enabled(m, e) && (e.Chat? || e.Replay?) && Duplicate(m.s, e.id)
    ensures Next(m, e).0 == m
  {
    DuplicateIsAccepted(m, e.id);
    assert m.accepted + {e.id} == m.accepted;
    hide Inv;
  }

  lemma HeldKeepsInv(m: Machine, e: Event)
    requires Inv(m) && Enabled(m, e) && e.Chat? && !Duplicate(m.s, e.id) && m.s.resuming
    ensures Inv(Next(m, e).0)
  {
    if |m.s.pendingLive| < m.s.cfg.sendQueueSize {
      var d := Delivery(e.id, e.lessonSeq, e.payload);
      var held := m.s.(pendingLive := m.s.pendingLive + [d]);
      DeliverySnoc(m.s.pendingLive, d);
      assert WindowOk(held);
      RememberWindow(held, e.id);
      RememberKeeps(held, e.id);
      hide WindowOk, RememberStep, Elems, PlacedIds, DeliveryIds;
    }
  }

  lemma SentKeepsInv(m: Machine, e: Event, item: Item)
    requires Inv(m) && Enabled(m, e) && (e.Replay? || (e.Chat? && !m.s.resuming)) && !Duplicate(m.s, e.id)
    requires item == Item(if e.Chat? then Live else Replayed, e.id, e.payload)
    ensures Inv(Next(m, e).0)
  {
    SendFacts(m.s, item);
    hide WindowOk, SendAndRemember, Elems, PlacedIds, DeliveryIds;
  }

  lemma ChatKeepsInv(m: Machine, id: string, payload: Message, lessonSeq: int)
    requires Inv(m) && Enabled(m, Chat(id, payload, lessonSeq))
    ensures Inv(Next(m, Chat(id, payload, lessonSeq)).0)
  {
    hide Inv, Next, Enabled;
    var e := Chat(id, payload, lessonSeq);
    if Duplicate(m.s, id) {
      DuplicateKeepsInv(m, e);
    } else if m.s.resuming {
      HeldKeepsInv(m, e);
    } else {
      SentKeepsInv(m, e, Item(Live, id, payload));
    }
  }

  lemma ReplayKeepsInv(m: Machine, id: string, payload: Message)
    requires Inv(m) && Enabled(m, Replay(id, payload))
    ensures Inv(Next(m, Replay(id, payload)).0)
  {
    hide Inv, Next, Enabled;
    var e := Replay(id, payload);
    if Duplicate(m.s, id) {
      DuplicateKeepsInv(m, e);
    } else {
      SentKeepsInv(m, e, Item(Replayed, id, payload));
    }
  }

  lemma FirstDelivery(ds: seq<Delivery>, i: nat)
    requires i < |ds|
    ensures DeliveryIds(ds[i..]) == {ds[i].messageId} + DeliveryIds(ds[i + 1..])
    ensures ds[i].messageId in DeliveryIds(ds)
  {
    assert ds[i..] == [ds[i]] + ds[i + 1..];
  }

  /** The next held message has been placed. */
  lemma FlushSent(m: Machine, t: State, id: string)
    requires Inv(m) && m.flush.Running? && m.flush.next < |m.s.pendingLive| && m.s.pendingLive[m.flush.next].messageId == id
    requires t == m.s.(send := t.send, placed := t.placed, seen := t.seen, seenOrder := t.seenOrder, remembered := t.remembered)
    requires WindowOk(t) && |t.send| <= t.cfg.sendQueueSize
    requires Elems(t.remembered) == Elems(m.s.remembered) + ({id} - {""}) && PlacedIds(t.placed) == PlacedIds(m.s.placed) + {id}
    ensures Inv(m.(s := t, flush := Running(m.flush.next + 1)))
  {
    FirstDelivery(m.s.pendingLive, m.flush.next);
    hide WindowOk, DeliveryIds, PlacedIds, Elems;
  }

  lemma FlushRefused(m: Machine)
    requires Inv(m) && m.flush.Running? && m.flush.next < |m.s.pendingLive|
    ensures Inv(m.(flush := Failed(m.flush.next)))
  {
    hide WindowOk, DeliveryIds, PlacedIds, Elems;
  }

  lemma FlushKeepsInv(m: Machine)
    requires Inv(m) && Enabled(m, FlushNext)
    ensures Inv(Next(m, FlushNext).0)
  {
    var d := m.s.pendingLive[m.flush.next];
    var item := Item(Flushed, d.messageId, d.payload);
    InvWindow(m);
    hide Inv, WindowOk, DeliveryIds, PlacedIds, Elems, SendAndRemember;
    SendFacts(m.s, item);
    var (t, ok) := SendAndRemember(m.s, item);
    if ok {
      FlushSent(m, t, d.messageId);
    } else {
      FlushRefused(m);
    }
  }

  lemma InvWindow(m: Machine)
    requires Inv(m)
    ensures WindowOk(m.s) && |m.s.send| <= m.s.cfg.sendQueueSize
  {
  }

  /** Every step keeps the invariant. */
  lemma InvStep(m: Machine, e: Event)
    requires Inv(m) && Enabled(m, e)
    ensures Inv(Next(m, e).0)
  {
    match e
    case Chat(id, payload, lessonSeq) => ChatKeepsInv(m, id, payload, lessonSeq);
    case Replay(id, payload) => ReplayKeepsInv(m, id, payload);
    case Send(payload) => PlacedSnoc(m.s.placed, Item(Control, "", payload));
    case FlushBegin => assert m.s.pendingLive[0..] == m.s.pendingLive;
    case FlushNext => FlushKeepsInv(m);
    case FlushEnd =>
    case Close(_) =>
    case WriterTake =>
    case WriterExit =>
  }

  /** MAIN RESULT: suppression never hides a loss. In every state of every run the window is
      the last messageDedupSize remembered ids, both queues are bounded, and every id a call
      reported as delivered has been placed on the queue or is still held back. */
  lemma {:induction false} RunInv(ms: seq<Machine>, es: seq<Event>)
    requires IsRun(ms, es)
    ensures forall i :: 0 <= i < |ms| ==> Inv(ms[i])
  {
    if es == [] {
      assert Inv(ms[0]);
    } else {
      var k := |es| - 1;
      assert IsRun(ms[..k + 1], es[..k]);
      RunInv(ms[..k + 1], es[..k]);
      assert Inv(ms[..k + 1][k]);
      InvStep(ms[k], es[k]);
      forall i | 0 <= i < |ms| ensures Inv(ms[i]) {
        if i <= k { assert ms[..k + 1][i] == ms[i]; }
      }
    }
  }

  /** After close nothing joins the queue, whatever happens. */
  lemma ClosedAddsNothing(m: Machine, e: Event)
    requires Enabled(m, e) && m.s.closed
    ensures Next(m, e).0.s.closed && Next(m, e).0.s.placed == m.s.placed
    ensures Next(m, e).0.s.send == m.s.send || (e.WriterTake? && Next(m, e).0.s.send == m.s.send[1..])
  {
  }

  lemma ClosedByClose(m: Machine, reason: string)
    ensures Next(m, Close(reason)).0.s.closed
  {
  }

  // ---------------------------------------------------------- exactly once

  function Count(items: seq<Item>, id: string): nat {
    if items == [] then 0 else
    Count(items[..|items| - 1], id) + (if items[|items| - 1].messageId == id then 1 else 0)
  }

  function CountHeld(ds: seq<Delivery>, id: string): nat {
    if ds == [] then 0 else (if ds[0].messageId == id then 1 else 0) + CountHeld(ds[1..], id)
  }

  /** The window has never had to forget: at most messageDedupSize distinct ids so far. */
  predicate WithinWindow(m: Machine) {
    |m.accepted| <= m.s.cfg.messageDedupSize
  }

  /** While nothing has been forgotten, every accepted id is in exactly one place: once on
      the queue's history or once among the messages still held back. */
  ghost predicate Once(m: Machine) {
    WithinWindow(m) ==>
      && m.s.seen == m.accepted
      && forall id :: id != "" ==> OneCopy(m, id)
  }

  /** How often an id was placed or is still to be placed by the flush. */
  function Copies(m: Machine, id: string): nat {
    Count(m.s.placed, id) + CountHeld(Unsent(m), id)
  }

  lemma CountSnoc(items: seq<Item>, x: Item, id: string)
    ensures Count(items + [x], id) == Count(items, id) + (if x.messageId == id then 1 else 0)
  {
    assert (items + [x])[..|items|] == items;
  }

  lemma {:induction false} CountHeldSnoc(ds: seq<Delivery>, d: Delivery, id: string)
    ensures CountHeld(ds + [d], id) == CountHeld(ds, id) + (if d.messageId == id then 1 else 0)
  {
    if ds != [] {
      CountHeldSnoc(ds[1..], d, id);
      assert (ds + [d])[1..] == ds[1..] + [d];
    }
  }

  lemma {:induction false} NoRepeatsSize(xs: seq<string>)
    requires NoRepeats(xs)
    ensures |Elems(xs)| == |xs|
  {
    if xs != [] {
      var k := |xs| - 1;
      NoRepeatsSize(xs[..k]);
      assert xs == xs[..k] + [xs[k]];
      ElemsSnoc(xs[..k], xs[k]);
    }
  }

  /** Within the window, remembering an id only adds it. */
  lemma RememberWithin(s: State, id: string, bound: set<string>)
    requires WindowOk(s) && s.seen + ({id} - {""}) <= bound && |bound| <= s.cfg.messageDedupSize
    ensures RememberStep(s, id).seen == s.seen + ({id} - {""})
  {
    if id != "" && id !in s.seen {
      NoRepeatsSize(s.seenOrder);
      assert |s.seen + {id}| == |s.seen| + 1;
      SubsetSize(s.seen + {id}, bound);
    }
  }

  /** Placing an accepted or new entry, within the window. */
  lemma SendOnce(s: State, item: Item, bound: set<string>, id: string)
    requires WindowOk(s) && s.seen + ({item.messageId} - {""}) <= bound && |bound| <= s.cfg.messageDedupSize
    ensures var (t, ok) := SendAndRemember(s, item);
            && t.seen == (if ok then s.seen + ({item.messageId} - {""}) else s.seen)
            && Count(t.placed, id) == Count(s.placed, id) + (if ok && item.messageId == id then 1 else 0)
  {
    CountSnoc(s.placed, item, id);
    RememberWithin(EnqueueStep(s, item).0, item.messageId, bound);
  }

  /** Exactly one copy of an accepted id, none of any other. */
  ghost predicate OneCopy(m: Machine, id: string) {
    Copies(m, id) == (if id in m.accepted then 1 else 0)
  }

  /** The client state `t` has one more copy of `id` than `m`, placed or held. */
  ghost predicate AddsCopy(m: Machine, t: State, id: string) {
    && t.cfg == m.s.cfg && t.seen == m.s.seen + ({id} - {""})
    && forall x :: x != "" ==> Copies(m.(s := t), x) == Copies(m, x) + (if x == id then 1 else 0)
  }

  lemma AddedOnce(m: Machine, id: string, t: State)
    requires Once(m) && WithinWindow(m) && id !in m.s.seen && AddsCopy(m, t, id)
    ensures Once(Accept(m, id, (t, true)).0)
  {
    var n := Accept(m, id, (t, true)).0;
    assert n.accepted == m.accepted + ({id} - {""});
    forall x | x != "" ensures OneCopy(n, x) {
      assert OneCopy(m, x);
      assert Copies(n, x) == Copies(m.(s := t), x);
    }
  }

  lemma SendAdds(m: Machine, item: Item, bound: set<string>)
    requires WindowOk(m.s) && !m.flush.Running? && SendAndRemember(m.s, item).1
    requires m.s.seen + ({item.messageId} - {""}) <= bound && |bound| <= m.s.cfg.messageDedupSize
    ensures AddsCopy(m, SendAndRemember(m.s, item).0, item.messageId)
  {
    var t := SendAndRemember(m.s, item).0;
    RememberKeeps(EnqueueStep(m.s, item).0, item.messageId);
    SendOnce(m.s, item, bound, "");
    forall x | x != "" ensures Count(t.placed, x) == Count(m.s.placed, x) + (if x == item.messageId then 1 else 0) {
      SendOnce(m.s, item, bound, x);
    }
    assert Unsent(m.(s := t)) == Unsent(m);
  }

  lemma HoldAdds(m: Machine, d: Delivery, bound: set<string>)
    requires WindowOk(m.s) && m.flush.NotStarted?
    requires m.s.seen + ({d.messageId} - {""}) <= bound && |bound| <= m.s.cfg.messageDedupSize
    ensures AddsCopy(m, RememberStep(m.s.(pendingLive := m.s.pendingLive + [d]), d.messageId), d.messageId)
  {
    var s := m.s.(pendingLive := m.s.pendingLive + [d]);
    var t := RememberStep(s, d.messageId);
    RememberKeeps(s, d.messageId);
    RememberWithin(s, d.messageId, bound);
    forall x | x != "" ensures Copies(m.(s := t), x) == Copies(m, x) + (if x == d.messageId then 1 else 0) {
      CountHeldSnoc(m.s.pendingLive, d, x);
    }
  }

  lemma FlushMoves(m: Machine, x: string)
    requires WindowOk(m.s) && Enabled(m, FlushNext) && x != "" && WithinWindow(m)
    requires m.s.seen + ({m.s.pendingLive[m.flush.next].messageId} - {""}) <= m.accepted
    ensures var n := Next(m, FlushNext).0;
            && Copies(n, x) == Copies(m, x)
            && n.s.seen == (if n.flush.Running? then m.s.seen + ({m.s.pendingLive[m.flush.next].messageId} - {""}) else m.s.seen)
  {
    var i := m.flush.next;
    var d := m.s.pendingLive[i];
    var item := Item(Flushed, d.messageId, d.payload);
    SendOnce(m.s, item, m.accepted, x);
    RememberKeeps(EnqueueStep(m.s, item).0, item.messageId);
    assert Unsent(m)[1..] == m.s.pendingLive[i + 1..];
  }

  lemma AcceptIds(m: Machine, id: string, t: State)
    ensures Accept(m, id, (t, true)).0.accepted == m.accepted + ({id} - {""})
  {
  }

  lemma AcceptAdded(m: Machine, id: string, t: State)
    requires Once(m) && t.cfg == m.s.cfg && id !in m.s.seen
    requires |m.accepted + ({id} - {""})| <= m.s.cfg.messageDedupSize ==> AddsCopy(m, t, id)
    ensures Once(Accept(m, id, (t, true)).0)
  {
    AcceptIds(m, id, t);
    SubsetSize(m.accepted, m.accepted + ({id} - {""}));
    if |m.accepted + ({id} - {""})| <= m.s.cfg.messageDedupSize {
      AddedOnce(m, id, t);
    }
  }

  lemma SendKeepsOnce(m: Machine, item: Item)
    requires WindowOk(m.s) && Once(m) && !m.flush.Running? && !Duplicate(m.s, item.messageId)
    ensures Once(Accept(m, item.messageId, SendAndRemember(m.s, item)).0)
  {
    var (t, ok) := SendAndRemember(m.s, item);
    if ok {
      var bound := m.accepted + ({item.messageId} - {""});
      RememberKeeps(EnqueueStep(m.s, item).0, item.messageId);
      if |bound| <= m.s.cfg.messageDedupSize {
        SubsetSize(m.accepted, bound);
        SendAdds(m, item, bound);
      }
      BlankUnseen(m.s);
      AcceptAdded(m, item.messageId, t);
    } else {
      assert t == m.s;
    }
  }

  lemma BlankUnseen(s: State)
    requires WindowOk(s)
    ensures "" !in s.seen
  {
  }

  lemma HoldKeepsOnce(m: Machine, d: Delivery)
    requires WindowOk(m.s) && Once(m) && m.flush.NotStarted? && !Duplicate(m.s, d.messageId)
    ensures Once(Accept(m, d.messageId, (RememberStep(m.s.(pendingLive := m.s.pendingLive + [d]), d.messageId), true)).0)
  {
    var s := m.s.(pendingLive := m.s.pendingLive + [d]);
    var bound := m.accepted + ({d.messageId} - {""});
    RememberKeeps(s, d.messageId);
    if |bound| <= m.s.cfg.messageDedupSize {
      SubsetSize(m.accepted, bound);
      HoldAdds(m, d, bound);
    }
    BlankUnseen(m.s);
    AcceptAdded(m, d.messageId, RememberStep(s, d.messageId));
  }

  lemma FlushKeepsOnce(m: Machine)
    requires Inv(m) && Once(m) && Enabled(m, FlushNext)
    ensures Once(Next(m, FlushNext).0)
  {
    var n := Next(m, FlushNext).0;
    var d := m.s.pendingLive[m.flush.next];
    RememberKeeps(EnqueueStep(m.s, Item(Flushed, d.messageId, d.payload)).0, d.messageId);
    if WithinWindow(n) {
      assert d.messageId in DeliveryIds(m.s.pendingLive);
      FlushMoves(m, "x");
      forall x | x != "" ensures OneCopy(n, x) {
        assert OneCopy(m, x);
        FlushMoves(m, x);
      }
    }
  }

  /** A step that neither accepts an id nor moves a copy. */
  lemma SameCopies(m: Machine, n: Machine)
    requires Once(m) && n.accepted == m.accepted && n.s.seen == m.s.seen && n.s.cfg == m.s.cfg
    requires forall x :: x != "" ==> Count(n.s.placed, x) == Count(m.s.placed, x)
    requires Unsent(n) == Unsent(m)
    ensures Once(n)
  {
    forall x | x != "" && WithinWindow(n) ensures OneCopy(n, x) {
      assert OneCopy(m, x);
    }
  }

  lemma OnceStep(m: Machine, e: Event)
    requires Inv(m) && Once(m) && Enabled(m, e)
    ensures Once(Next(m, e).0)
  {
    var n := Next(m, e).0;
    match e
    case Chat(id, payload, lessonSeq) =>
      if Duplicate(m.s, id) { DuplicateIsAccepted(m, id); assert n == m by { assert m.accepted + {id} == m.accepted; } }
      else if !m.s.resuming { SendKeepsOnce(m, Item(Live, id, payload)); }
      else if |m.s.pendingLive| < m.s.cfg.sendQueueSize { HoldKeepsOnce(m, Delivery(id, lessonSeq, payload)); }
    case Replay(id, payload) =>
      if Duplicate(m.s, id) { DuplicateIsAccepted(m, id); assert n == m by { assert m.accepted + {id} == m.accepted; } }
      else { SendKeepsOnce(m, Item(Replayed, id, payload)); }
    case Send(payload) =>
      forall x | x != "" ensures Count(n.s.placed, x) == Count(m.s.placed, x) {
        CountSnoc(m.s.placed, Item(Control, "", payload), x);
      }
      SameCopies(m, n);
    case FlushBegin => assert m.s.pendingLive[0..] == m.s.pendingLive; SameCopies(m, n);
    case FlushNext => FlushKeepsOnce(m);
    case FlushEnd => SameCopies(m, n);
    case Close(_) => SameCopies(m, n);
    case WriterTake => SameCopies(m, n);
    case WriterExit => SameCopies(m, n);
  }

  lemma {:induction false} RunOnce(ms: seq<Machine>, es: seq<Event>)
    requires IsRun(ms, es)
    ensures Once(ms[|es|])
  {
    if es != [] {
      var k := |es| - 1;
      assert IsRun(ms[..k + 1], es[..k]);
      RunOnce(ms[..k + 1], es[..k]);
      RunInv(ms, es);
      OnceStep(ms[k], es[k]);
    }
  }

  /** MAIN RESULT: exactly once within the window. Over every interleaving, while at most
      messageDedupSize distinct ids have been accepted, no id is placed twice; and once the
      flush has succeeded (or nothing was ever held back) every accepted id has been placed
      exactly once. */
  lemma ExactlyOnce(ms: seq<Machine>, es: seq<Event>, id: string)
    requires IsRun(ms, es) && id != "" && WithinWindow(ms[|es|])
    ensures Count(ms[|es|].s.placed, id) <= 1
    ensures id !in ms[|es|].accepted ==> Count(ms[|es|].s.placed, id) == 0
    ensures Unsent(ms[|es|]) == [] && id in ms[|es|].accepted ==> Count(ms[|es|].s.placed, id) == 1
    ensures ms[|es|].flush.Succeeded? ==> Unsent(ms[|es|]) == []
  {
    RunOnce(ms, es);
    assert OneCopy(ms[|es|], id);
  }

  /** The whole FinishResume call is the flush steps with nothing in between. */
  function FlushAlone(m: Machine): Machine
    requires m.flush.Running? && m.flush.next <= |m.s.pendingLive|
    decreases |m.s.pendingLive| - m.flush.next
  {
    if m.flush.next == |m.s.pendingLive| then Next(m, FlushEnd).0 else
    var n := Next(m, FlushNext).0;
    if n.flush.Running? && |n.s.pendingLive| == |m.s.pendingLive| then FlushAlone(n) else n
  }

  lemma {:induction false} FlushAloneIsFinishResume(m: Machine)
    requires m.flush.Running? && m.flush.next <= |m.s.pendingLive|
    ensures FlushAlone(m).s == FlushFrom(m.s, m.flush.next).0
    ensures FlushAlone(m).flush.Succeeded? <==> FlushFrom(m.s, m.flush.next).1
    decreases |m.s.pendingLive| - m.flush.next
  {
    if m.flush.next < |m.s.pendingLive| {
      FlushOneExactly(m.s, m.flush.next);
      var n := Next(m, FlushNext).0;
      if n.flush.Running? { FlushAloneIsFinishResume(n); }
    }
  }

  // ------------------------------------------------------ the window as a filter

  function LiveCalls(es: seq<Event>): seq<Item> {
    if es == [] then [] else
    var e := es[|es| - 1];
    LiveCalls(es[..|es| - 1]) + (if e.Chat? then [Item(Live, e.id, e.payload)] else [])
  }

  function LiveItems(items: seq<Item>): seq<Item> {
    if items == [] then [] else
    var x := items[|items| - 1];
    LiveItems(items[..|items| - 1]) + (if x.origin == Live then [x] else [])
  }

  function NonBlank(items: seq<Item>): seq<string> {
    if items == [] then [] else
    var x := items[|items| - 1];
    NonBlank(items[..|items| - 1]) + (if x.messageId != "" then [x.messageId] else [])
  }

  /** The reference: keep an entry unless its id is among the last n ids kept. */
  function WindowFilter(stream: seq<Item>, n: int): seq<Item> {
    if stream == [] then [] else
    var kept := WindowFilter(stream[..|stream| - 1], n);
    var x := stream[|stream| - 1];
    if x.messageId != "" && x.messageId in Last(NonBlank(kept), n) then kept else kept + [x]
  }

  lemma LiveSnoc(items: seq<Item>, x: Item)
    ensures LiveItems(items + [x]) == LiveItems(items) + (if x.origin == Live then [x] else [])
    ensures NonBlank(items + [x]) == NonBlank(items) + (if x.messageId != "" then [x.messageId] else [])
  {
    assert (items + [x])[..|items|] == items;
  }

  lemma FilterSnoc(stream: seq<Item>, x: Item, n: int)
    ensures WindowFilter(stream + [x], n) ==
            (if x.messageId != "" && x.messageId in Last(NonBlank(WindowFilter(stream, n)), n)
             then WindowFilter(stream, n) else WindowFilter(stream, n) + [x])
  {
    assert (stream + [x])[..|stream|] == stream;
  }

  /** The same for a chat call; a duplicate is exactly what the window filter drops. */
  lemma FilterChat(m: Machine, x: Item, lessonSeq: int, calls: seq<Item>)
    requires Inv(m) && !m.s.resuming && Enabled(m, Chat(x.messageId, x.payload, lessonSeq)) && x.origin == Live
    requires Next(m, Chat(x.messageId, x.payload, lessonSeq)).1
    requires LiveItems(m.s.placed) == WindowFilter(calls, m.s.cfg.messageDedupSize)
    requires m.s.remembered == NonBlank(LiveItems(m.s.placed))
    ensures var n := Next(m, Chat(x.messageId, x.payload, lessonSeq)).0;
            && LiveItems(n.s.placed) == WindowFilter(calls + [x], m.s.cfg.messageDedupSize)
            && n.s.remembered == NonBlank(LiveItems(n.s.placed))
  {
    FilterSnoc(calls, x, m.s.cfg.messageDedupSize);
    assert Duplicate(m.s, x.messageId) <==> x.messageId != "" && x.messageId in Last(m.s.remembered, m.s.cfg.messageDedupSize);
    hide Inv, WindowOk, WindowFilter;
    if !Duplicate(m.s, x.messageId) {
      LiveSnoc(m.s.placed, x);
      LiveSnoc(LiveItems(m.s.placed), x);
      RememberKeeps(EnqueueStep(m.s, x).0, x.messageId);
    }
  }

  /** No other step of such a client touches what it has sent or remembered. */
  lemma StreamUntouched(m: Machine, e: Event)
    requires Inv(m) && Enabled(m, e) && !m.s.resuming && m.s.pendingLive == [] && !e.Replay?
    ensures var n := Next(m, e).0;
            && !n.s.resuming && n.s.pendingLive == [] && n.s.cfg == m.s.cfg
            && (e.Send? ==> n.s.remembered == m.s.remembered
                            && (n.s.placed == m.s.placed || n.s.placed == m.s.placed + [Item(Control, "", e.payload)]))
            && (!e.Chat? && !e.Send? ==> n.s.remembered == m.s.remembered && n.s.placed == m.s.placed)
  {
    if e.Chat? && !Duplicate(m.s, e.id) { RememberKeeps(EnqueueStep(m.s, Item(Live, e.id, e.payload)).0, e.id); }
    hide WindowOk, RememberStep, Elems, PlacedIds, DeliveryIds;
  }

  /** What one step adds for a client that is not resuming. */
  lemma FilterStep(m: Machine, e: Event, calls: seq<Item>)
    requires Inv(m) && Enabled(m, e) && !m.s.resuming && m.s.pendingLive == [] && !e.Replay?
    requires e.Chat? ==> Next(m, e).1
    requires LiveItems(m.s.placed) == WindowFilter(calls, m.s.cfg.messageDedupSize)
    requires m.s.remembered == NonBlank(LiveItems(m.s.placed))
    ensures var n := Next(m, e).0;
            var more := calls + (if e.Chat? then [Item(Live, e.id, e.payload)] else []);
            && !n.s.resuming && n.s.pendingLive == [] && n.s.cfg == m.s.cfg
            && LiveItems(n.s.placed) == WindowFilter(more, m.s.cfg.messageDedupSize)
            && n.s.remembered == NonBlank(LiveItems(n.s.placed))
  {
    assert calls + [] == calls;
    StreamUntouched(m, e);
    if e.Chat? { FilterChat(m, Item(Live, e.id, e.payload), e.lessonSeq, calls); }
    if e.Send? { LiveSnoc(m.s.placed, Item(Control, "", e.payload)); }
    hide Inv, WindowOk, LiveItems, WindowFilter, NonBlank, Next, Enabled;
  }

  /** MAIN RESULT for the window: for a client that is not resuming, with every live call
      successful, the live payloads sent are the broadcast stream filtered by "id blank, or
      not among the last messageDedupSize ids kept". */
  lemma {:induction false} LiveStreamIsFiltered(ms: seq<Machine>, es: seq<Event>)
    requires IsRun(ms, es) && !ms[0].s.resuming
    requires forall i :: 0 <= i < |es| ==> !es[i].Replay? && (es[i].Chat? ==> Next(ms[i], es[i]).1)
    ensures var s := ms[|es|].s;
            && LiveItems(s.placed) == WindowFilter(LiveCalls(es), s.cfg.messageDedupSize)
            && s.remembered == NonBlank(LiveItems(s.placed))
            && !s.resuming && s.pendingLive == []
  {
    if es != [] {
      var k := |es| - 1;
      assert IsRun(ms[..k + 1], es[..k]);
      LiveStreamIsFiltered(ms[..k + 1], es[..k]);
      RunInv(ms, es);
      FilterStep(ms[k], es[k], LiveCalls(es[..k]));
    }
  }
}
