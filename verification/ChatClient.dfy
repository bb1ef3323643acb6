/** One connected chat client of the hub: bounded send queue, bounded "already seen" window,
    live messages held back while history is replayed (internal/api/chatroom/hub.go). */
module ChatClient {
  import opened ChatMessages

  /** The two sizes the manager insists on being positive. */
  datatype RawConfig = RawConfig(sendQueueSize: int, messageDedupSize: int)
  type Config = c: RawConfig | c.sendQueueSize > 0 && c.messageDedupSize > 0 witness RawConfig(1, 1)

  datatype Delivery = Delivery(messageId: string, lessonSeq: int, payload: Message)

  /** Which call put a payload on the send queue. */
  datatype Origin = Control | Live | Replayed | Flushed

  datatype Item = Item(origin: Origin, messageId: string, payload: Message)

  /** The fields of a client, with three histories, oldest first: everything ever put on `send`,
      the payloads the writer has taken off it, and every id ever entered into the seen window. */
  datatype State = State(
    cfg: Config,
    send: seq<Message>,
    closed: bool,
    reason: string,
    writerExited: bool,
    resuming: bool,
    pendingLive: seq<Delivery>,
    seen: set<string>,
    seenOrder: seq<string>,
    placed: seq<Item>,
    taken: seq<Message>,
    remembered: seq<string>)

  function Initial(cfg: Config, resuming: bool): State {
    State(cfg, [], false, "", false, resuming, [], {}, [], [], [], [])
  }

  function Elems(xs: seq<string>): set<string> {
    set x | x in xs
  }

  // ------------------------------------------------------------- step functions

  /** Enqueue: refuses a closed client and a full queue. */
  function EnqueueStep(s: State, item: Item): (State, bool) {
    if s.closed || |s.send| >= s.cfg.sendQueueSize then (s, false)
    else (s.(send := s.send + [item.payload], placed := s.placed + [item]), true)
  }

  function RememberStep(s: State, id: string): State {
    if id == "" || id in s.seen then s else
    var order := s.seenOrder + [id];
    var t := s.(seen := s.seen + {id}, seenOrder := order, remembered := s.remembered + [id]);
    var overflow := |order| - s.cfg.messageDedupSize;
    if overflow > 0 then
      t.(seen := t.seen - Elems(order[..overflow]), seenOrder := order[overflow..])
    else t
  }

  predicate Duplicate(s: State, id: string) {
    id != "" && id in s.seen
  }

  function SendAndRemember(s: State, item: Item): (State, bool) {
    var (t, ok) := EnqueueStep(s, item);
    if ok then (RememberStep(t, item.messageId), true) else (t, false)
  }

  function EnqueueChatStep(s: State, id: string, payload: Message, lessonSeq: int): (State, bool) {
    if Duplicate(s, id) then (s, true)
    else if s.resuming then
      if |s.pendingLive| >= s.cfg.sendQueueSize then (s, false)
      else (RememberStep(s.(pendingLive := s.pendingLive + [Delivery(id, lessonSeq, payload)]), id), true)
    else SendAndRemember(s, Item(Live, id, payload))
  }

  function EnqueueReplayStep(s: State, id: string, payload: Message): (State, bool) {
    if Duplicate(s, id) then (s, true)
    else SendAndRemember(s, Item(Replayed, id, payload))
  }

  /** One turn of the flush loop. */
  function FlushOne(s: State, i: nat): (State, bool)
    requires i < |s.pendingLive|
  {
    var d := s.pendingLive[i];
    SendAndRemember(s, Item(Flushed, d.messageId, d.payload))
  }

  /** The flush loop from index i on, when nothing interferes. */
  function FlushFrom(s: State, i: nat): (r: (State, bool))
    requires i <= |s.pendingLive|
    decreases |s.pendingLive| - i
  {
    if i == |s.pendingLive| then (s.(pendingLive := []), true) else
    var (t, ok) := FlushOne(s, i);
    if ok then FlushFrom(t, i + 1) else (t, false)
  }

  function FinishResumeStep(s: State): (State, bool) {
    FlushFrom(s.(resuming := false), 0)
  }

  function CloseStep(s: State, reason: string): (State, bool) {
    if s.closed then (s, false) else (s.(closed := true, reason := reason), true)
  }

  // ------------------------------------------------------------------ the object

  /** The queue-depth gauge all clients share. */
  class Metrics {
    var chatQueueDepth: int

    constructor ()
      ensures chatQueueDepth == 0
    {
      chatQueueDepth := 0;
    }
  }

  class Client {
    const cfg: Config
    const metrics: Metrics
    var send: seq<Message>
    var closed: bool
    var reason: string
    var writerExited: bool
    var resuming: bool
    var pendingLive: seq<Delivery>
    var seenMessageIds: set<string>
    var seenOrder: seq<string>
    ghost var placed: seq<Item>
    ghost var taken: seq<Message>
    ghost var remembered: seq<string>

    ghost function View(): State
      reads this
    {
      State(cfg, send, closed, reason, writerExited, resuming, pendingLive, seenMessageIds, seenOrder, placed, taken, remembered)
    }

    constructor (cfg: Config, metrics: Metrics, resuming: bool)
      ensures View() == Initial(cfg, resuming) && this.metrics == metrics
    {
      this.cfg, this.metrics, this.resuming := cfg, metrics, resuming;
      send, closed, reason, writerExited := [], false, "", false;
      pendingLive, seenMessageIds, seenOrder := [], {}, [];
      placed, taken, remembered := [], [], [];
    }

    /** `origin` and `messageId` only label the entry in the history. */
    method Enqueue(payload: Message, ghost origin: Origin, ghost messageId: string) returns (ok: bool)
      modifies this, metrics
      ensures (View(), ok) == EnqueueStep(old(View()), Item(origin, messageId, payload))
      ensures metrics.chatQueueDepth - old(metrics.chatQueueDepth) == |send| - old(|send|)
    {
      if closed { return false; }
      if |send| < cfg.sendQueueSize {
        send := send + [payload];
        placed := placed + [Item(origin, messageId, payload)];
        metrics.chatQueueDepth := metrics.chatQueueDepth + 1;
        return true;
      }
      return false;
    }

    method RememberMessage(messageId: string)
      modifies this
      ensures View() == RememberStep(old(View()), messageId)
    {
      if messageId == "" || messageId in seenMessageIds { return; }
      seenMessageIds := seenMessageIds + {messageId};
      seenOrder := seenOrder + [messageId];
      remembered := remembered + [messageId];
      var overflow := |seenOrder| - cfg.messageDedupSize;
      if overflow > 0 {
        ghost var all := seenMessageIds;
        for i := 0 to overflow
          invariant seenOrder == old(seenOrder) + [messageId]
          invariant seenMessageIds == all - Elems(seenOrder[..i])
          invariant View() == old(View()).(seen := seenMessageIds, seenOrder := seenOrder, remembered := remembered)
          invariant remembered == old(remembered) + [messageId]
        {
          assert Elems(seenOrder[..i + 1]) == Elems(seenOrder[..i]) + {seenOrder[i]};
          seenMessageIds := seenMessageIds - {seenOrder[i]};
        }
        seenOrder := seenOrder[overflow..];
      }
    }

    method EnqueueChat(messageId: string, payload: Message, lessonSeq: int) returns (ok: bool)
      modifies this, metrics
      ensures (View(), ok) == EnqueueChatStep(old(View()), messageId, payload, lessonSeq)
      ensures metrics.chatQueueDepth - old(metrics.chatQueueDepth) == |send| - old(|send|)
    {
      if messageId != "" && messageId in seenMessageIds { return true; }
      if resuming {
        if |pendingLive| >= cfg.sendQueueSize { return false; }
        pendingLive := pendingLive + [Delivery(messageId, lessonSeq, payload)];
        RememberMessage(messageId);
        return true;
      }
      ok := Enqueue(payload, Live, messageId);
      if !ok { return; }
      RememberMessage(messageId);
    }

    method EnqueueReplay(messageId: string, payload: Message) returns (ok: bool)
      modifies this, metrics
      ensures (View(), ok) == EnqueueReplayStep(old(View()), messageId, payload)
      ensures metrics.chatQueueDepth - old(metrics.chatQueueDepth) == |send| - old(|send|)
    {
      if messageId != "" && messageId in seenMessageIds { return true; }
      ok := Enqueue(payload, Replayed, messageId);
      if !ok { return; }
      RememberMessage(messageId);
    }

    method FinishResume() returns (ok: bool)
      modifies this, metrics
      ensures (View(), ok) == FinishResumeStep(old(View()))
      ensures metrics.chatQueueDepth - old(metrics.chatQueueDepth) == |send| - old(|send|)
    {
      resuming := false;
      ghost var start := View();
      for i := 0 to |pendingLive|
        invariant pendingLive == start.pendingLive
        invariant FlushFrom(View(), i) == FlushFrom(start, 0)
        invariant metrics.chatQueueDepth - old(metrics.chatQueueDepth) == |send| - old(|send|)
      {
        var delivery := pendingLive[i];
        var sent := Enqueue(delivery.payload, Flushed, delivery.messageId);
        if !sent { return false; }
        RememberMessage(delivery.messageId);
      }
      pendingLive := [];
      return true;
    }

    method Close(reason: string) returns (closedNow: bool)
      modifies this
      ensures (View(), closedNow) == CloseStep(old(View()), reason)
    {
      if closed { return false; }
      this.reason := reason;
      closed := true;
      return true;
    }

    /** The writer takes one payload off the queue. */
    method WriterTake() returns (payload: Message)
      requires send != [] && !writerExited
      modifies this, metrics
      ensures payload == old(send)[0]
      ensures View() == old(View()).(send := old(send)[1..], taken := old(taken) + [payload])
      ensures metrics.chatQueueDepth - old(metrics.chatQueueDepth) == |send| - old(|send|)
    {
      payload := send[0];
      send := send[1..];
      taken := taken + [payload];
      metrics.chatQueueDepth := metrics.chatQueueDepth - 1;
    }

    /** The writer returns; what is still queued leaves the gauge. */
    method WriterExit()
      requires !writerExited
      modifies this, metrics
      ensures View() == old(View()).(writerExited := true)
      ensures metrics.chatQueueDepth == old(metrics.chatQueueDepth) - |send|
    {
      writerExited := true;
      if |send| > 0 {
        metrics.chatQueueDepth := metrics.chatQueueDepth - |send|;
      }
    }
  }

  // ----------------------------------------------------------- the flush, exactly

  /** How many more payloads the queue takes. */
  function Room(s: State): nat {
    if s.closed || |s.send| >= s.cfg.sendQueueSize then 0 else s.cfg.sendQueueSize - |s.send|
  }

  /** The entries the flush puts on the queue. */
  function FlushItems(ds: seq<Delivery>): seq<Item> {
    if ds == [] then [] else [Item(Flushed, ds[0].messageId, ds[0].payload)] + FlushItems(ds[1..])
  }

  lemma FlushOneExactly(s: State, i: nat)
    requires i < |s.pendingLive|
    ensures var (t, ok) := FlushOne(s, i);
            && (ok <==> Room(s) > 0)
            && (ok ==> t.placed == s.placed + [FlushItems(s.pendingLive[i..])[0]] && Room(t) == Room(s) - 1)
            && (!ok ==> t == s)
            && t.pendingLive == s.pendingLive
  {
  }

  lemma TakeMore(placed: seq<Item>, x: Item, rest: seq<Item>, room: nat)
    ensures placed + ([x] + rest) == (placed + [x]) + rest
    ensures room < |rest| ==> placed + ([x] + rest)[..room + 1] == (placed + [x]) + rest[..room]
  {
  }

  /** Undisturbed, the flush from index i on places, in order, as much as the queue takes. It
      succeeds if and only if that is everything, and only then is the buffer cleared. */
  lemma {:induction false} FlushFromExactly(s: State, i: nat)
    requires i <= |s.pendingLive|
    ensures var (t, ok) := FlushFrom(s, i);
            var left := FlushItems(s.pendingLive[i..]);
            && |left| == |s.pendingLive| - i
            && (ok <==> |left| <= Room(s))
            && t.placed == s.placed + (if ok then left else left[..Room(s)])
            && t.pendingLive == (if ok then [] else s.pendingLive)
    decreases |s.pendingLive| - i
  {
    var left := FlushItems(s.pendingLive[i..]);
    if i < |s.pendingLive| {
      FlushOneExactly(s, i);
      var (t, ok) := FlushOne(s, i);
      if ok {
        FlushFromExactly(t, i + 1);
        assert s.pendingLive[i..][1..] == s.pendingLive[i + 1..];
        var rest := FlushItems(s.pendingLive[i + 1..]);
        assert left == [left[0]] + rest;
        hide FlushOne, FlushItems, Room;
        TakeMore(s.placed, left[0], rest, Room(t));
      } else {
        FlushLength(s.pendingLive[i..]);
        hide FlushOne, FlushItems;
      }
    }
  }

  lemma {:induction false} FlushLength(ds: seq<Delivery>)
    ensures |FlushItems(ds)| == |ds|
  {
    if ds != [] { FlushLength(ds[1..]); }
  }
}
