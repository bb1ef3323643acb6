/** The resume protocol end to end on the server: one resuming client among any number of
    others, the lesson's message log, the paged replay and the concurrent broadcasts. Every
    step is one critical section (internal/api/chatroom/hub.go, internal/api/service/chat_ws.go). */
module Delivery {
  import opened Wrappers
  import opened ChatMessages
  import H = RoomRegistry
  import R = RoomRegistryRuns
  import K = ChatClient
  import C = ChatClientRuns
  import P = HistoryReplay

  /** A stored message; `key` is its rank in the history order (creation time, then id). */
  datatype Entry = Entry(msg: Message, key: int)

  /** How far one broadcast of one entry has come, as far as this client is concerned. */
  datatype Stage = Located(room: nat) | Sending(due: bool) | Evicting

  datatype Cast = Cast(entry: Entry, stage: Stage)

  /** Where the session's goroutine stands. `Offering` holds the page just read and the index
      of the next message to offer; `Ended` holds the outcome of the replay. */
  datatype Phase =
    | Unregistered
    | Paging(cursor: int, recovered: nat)
    | Offering(cursor: int, page: seq<Entry>, next: nat, hasMore: bool, recovered: nat)
    | Ended(complete: bool, truncated: bool)

  /** `late`: entries stored after this client registered. `begun`: entries some broadcast
      has been started for. */
  datatype State = State(
    me: int, lesson: int, anchor: int,
    reg: R.State, client: C.Machine,
    log: set<Entry>, late: set<Entry>, begun: set<Entry>,
    casts: map<nat, Cast>, phase: Phase)

  datatype Step =
    | Registry(st: R.Step)
    | Store(entry: Entry)
    | Begin(cast: nat, entry: Entry)
    | Snapshot(cast: nat)
    | Deliver(cast: nat)
    | Evict(cast: nat)
    | Pass(cast: nat)
    | Join(blank: nat)
    | ReadPage(page: seq<Entry>, hasMore: bool)
    | ReadFails
    | Offer
    | PageDone
    | Act(e: C.Event)

  function Limit(recovered: nat): nat {
    if recovered < P.MAX_MESSAGES && P.MAX_MESSAGES - recovered < P.BATCH_SIZE then P.MAX_MESSAGES - recovered
    else P.BATCH_SIZE
  }

  /** What one history read may return: the entries right after the cursor in key order, at
      most `limit` of them, and whether there are more. */
  ghost predicate IsPage(log: set<Entry>, cursor: int, limit: nat, page: seq<Entry>, hasMore: bool) {
    && |page| <= limit
    && (forall i, j :: 0 <= i < j < |page| ==> page[i].key < page[j].key)
    && (forall x :: x in page ==> x in log && x.key > cursor)
    && (forall x :: x in log && x.key > cursor && x !in page ==> hasMore && page != [] && x.key > page[|page| - 1].key)
  }

  function Init(me: int, lesson: int, anchor: int, cfg: K.Config): State {
    State(me, lesson, anchor, R.Init(), C.Start(cfg, true), {}, {}, {}, map[], Unregistered)
  }

  ghost predicate FreshEntry(log: set<Entry>, x: Entry) {
    x.msg.messageId != "" && forall y :: y in log ==> y.msg.messageId != x.msg.messageId && y.key != x.key
  }

  /** An unregister of this client starts only after its close; its own goroutine does the
      replay and then the flush; everything else may happen at any time. */
  ghost predicate Enabled(s: State, st: Step) {
    match st
    case Registry(r) =>
      && R.Enabled(s.reg, r)
      && (r.DoRegister? ==> r.client != s.me)
      && (r.DoLookup? && r.client == s.me ==> s.client.s.closed)
    case Store(x) => FreshEntry(s.log, x)
    case Begin(b, x) => b !in s.casts && x in s.log
    case Snapshot(b) => b in s.casts && s.casts[b].stage.Located? && s.casts[b].stage.room in s.reg.hub.members
    case Deliver(b) => b in s.casts && s.casts[b].stage == Sending(true) && !s.client.flush.Running?
    case Evict(b) => b in s.casts && s.casts[b].stage.Evicting?
    case Pass(b) => b in s.casts && s.casts[b].stage == Sending(false)
    case Join(blank) => s.phase.Unregistered? && R.Enabled(s.reg, R.DoRegister(s.me, s.lesson, blank))
    case ReadPage(page, hasMore) =>
      s.phase.Paging? && s.phase.recovered < P.MAX_MESSAGES && IsPage(s.log, s.phase.cursor, Limit(s.phase.recovered), page, hasMore)
    case ReadFails => s.phase.Paging? && s.phase.recovered < P.MAX_MESSAGES
    case Offer => s.phase.Offering? && s.phase.next < |s.phase.page| && !s.client.flush.Running?
    case PageDone => s.phase.Offering? && s.phase.next == |s.phase.page|
    case Act(e) =>
      && C.Enabled(s.client, e) && !e.Chat? && !e.Replay?
      && (e.FlushBegin? || e.FlushNext? || e.FlushEnd? ==> s.phase.Ended?)
  }

  function ChatOf(x: Entry): C.Event {
    C.Chat(x.msg.messageId, x.msg, x.msg.lessonSeq)
  }

  function ReplayOf(x: Entry): C.Event {
    C.Replay(x.msg.messageId, x.msg)
  }

  /** After a page: stop when it was the last one, when the cursor is missing, or when the
      replay has reached its maximum. */
  function AfterPage(p: Phase): Phase
    requires p.Offering?
  {
    if !p.hasMore then Ended(true, false)
    else if p.page == [] then Ended(false, false)
    else if p.recovered < P.MAX_MESSAGES then Paging(p.page[|p.page| - 1].key, p.recovered)
    else Ended(true, true)
  }

  ghost function Next(s: State, st: Step): State
    requires Enabled(s, st)
  {
    match st
    case Registry(r) => s.(reg := R.Next(s.reg, r))
    case Store(x) => s.(log := s.log + {x}, late := if s.phase.Unregistered? then s.late else s.late + {x})
    case Begin(b, x) =>
      var room := H.Lookup(s.reg.hub, s.lesson);
      s.(begun := s.begun + {x}, casts := if room.None? then s.casts else s.casts[b := Cast(x, Located(room.value))])
    case Snapshot(b) =>
      s.(casts := s.casts[b := s.casts[b].(stage := Sending(s.me in s.reg.hub.members[s.casts[b].stage.room].clients))])
    case Deliver(b) =>
      var (m, ok) := C.Next(s.client, ChatOf(s.casts[b].entry));
      s.(client := m, casts := if ok then s.casts - {b} else s.casts[b := s.casts[b].(stage := Evicting)])
    case Evict(b) => s.(client := C.Next(s.client, C.Close("slow consumer")).0, casts := s.casts - {b})
    case Pass(b) => s.(casts := s.casts - {b})
    case Join(blank) => s.(reg := R.Next(s.reg, R.DoRegister(s.me, s.lesson, blank)), phase := Paging(s.anchor, 0))
    case ReadPage(page, hasMore) =>
      s.(phase := Offering(s.phase.cursor, page, 0, hasMore, s.phase.recovered))
    case ReadFails => s.(phase := Ended(false, false))
    case Offer =>
      var (m, ok) := C.Next(s.client, ReplayOf(s.phase.page[s.phase.next]));
      s.(client := m, phase := if ok then s.phase.(next := s.phase.next + 1, recovered := s.phase.recovered + 1)
                               else Ended(false, false))
    case PageDone => s.(phase := AfterPage(s.phase))
    case Act(e) => s.(client := C.Next(s.client, e).0)
  }

  ghost predicate IsRun(ss: seq<State>, steps: seq<Step>) {
    && |ss| == |steps| + 1
    && ss[0] == Init(ss[0].me, ss[0].lesson, ss[0].anchor, ss[0].client.s.cfg)
    && forall i :: 0 <= i < |steps| ==> Enabled(ss[i], steps[i]) && ss[i + 1] == Next(ss[i], steps[i])
  }

  // ------------------------------------------------------------------ invariant

  /** Some broadcast of x will still hand it to this client, or is about to evict it. */
  predicate Coming(s: State, b: nat, x: Entry) {
    b in s.casts && s.casts[b].entry == x &&
    match s.casts[b].stage
    case Located(r) => R.Holds(s.reg.hub, r, s.me)
    case Sending(due) => due
    case Evicting => true
  }

  ghost predicate StillToCome(s: State, x: Entry) {
    exists b :: Coming(s, b, x)
  }

  predicate Reported(s: State, x: Entry) {
    x.msg.messageId in s.client.accepted
  }

  ghost predicate LogOk(s: State) {
    && (forall x :: x in s.log ==> x.msg.messageId != "")
    && (forall x, y :: x in s.log && y in s.log && (x.msg.messageId == y.msg.messageId || x.key == y.key) ==> x == y)
    && s.late <= s.log && s.begun <= s.log
    && (forall b :: b in s.casts ==> s.casts[b].entry in s.begun)
  }

  /** While open and registered, the client stays registered. */
  ghost predicate SessionOk(s: State) {
    && (s.phase.Unregistered? <==> s.me !in s.reg.ledger.home)
    && (!s.phase.Unregistered? ==> s.reg.ledger.home[s.me] == s.lesson)
    && (s.me in s.reg.ledger.removals ==> s.client.s.closed)
    && (forall t :: t in s.reg.tasks && s.reg.tasks[t].client == s.me ==> s.client.s.closed)
    && (!s.client.flush.NotStarted? ==> s.phase.Ended?)
  }

  /** Every late entry whose broadcast has begun was reported delivered or is coming. */
  ghost predicate LateOk(s: State) {
    forall x :: x in s.late && x in s.begun ==> Reported(s, x) || StillToCome(s, x) || s.client.s.closed
  }

  /** Entries stored before registration: those the replay has passed were reported. */
  ghost predicate PassedOk(s: State, upTo: int) {
    forall x :: x in s.log && x !in s.late && s.anchor < x.key <= upTo ==> Reported(s, x)
  }

  ghost predicate ReplayOk(s: State) {
    match s.phase
    case Unregistered => s.late == {}
    case Paging(cursor, _) => PassedOk(s, cursor)
    case Offering(cursor, page, next, hasMore, _) =>
      && next <= |page|
      && PassedOk(s, cursor)
      && (forall i :: 0 <= i < next ==> Reported(s, page[i]))
      && (forall x :: x in page ==> x in s.log)
      && (forall x :: x in s.log && x !in s.late && x.key > cursor && x !in page
            ==> hasMore && page != [] && x.key > page[|page| - 1].key)
    case Ended(complete, truncated) =>
      complete && !truncated ==> forall x :: x in s.log && x !in s.late && x.key > s.anchor ==> Reported(s, x)
  }

  ghost predicate Inv(s: State) {
    R.Inv(s.reg) && C.Inv(s.client) && LogOk(s) && SessionOk(s) && LateOk(s) && ReplayOk(s)
  }

  // ---------------------------------------------------------------- preservation

  /** A client step never withdraws a report, never reopens, and stays within its invariant. */
  lemma ClientStep(m: C.Machine, e: C.Event)
    requires C.Inv(m) && C.Enabled(m, e)
    ensures C.Inv(C.Next(m, e).0) && m.accepted <= C.Next(m, e).0.accepted
    ensures m.s.closed ==> C.Next(m, e).0.s.closed
    ensures e.Chat? || e.Replay? ==> C.Next(m, e).1 && e.id != "" ==> e.id in C.Next(m, e).0.accepted
    ensures C.Next(m, e).0.flush.NotStarted? <==> m.flush.NotStarted? && !e.FlushBegin?
  {
    C.InvStep(m, e);
  }

  /** The client event a step performs, if any. */
  function EventOf(s: State, st: Step): Option<C.Event> {
    match st
    case Deliver(b) => if b in s.casts then Some(ChatOf(s.casts[b].entry)) else None
    case Evict(_) => Some(C.Close("slow consumer"))
    case Offer => if s.phase.Offering? && s.phase.next < |s.phase.page| then Some(ReplayOf(s.phase.page[s.phase.next])) else None
    case Act(e) => Some(e)
    case _ => None
  }

  lemma ClientPart(s: State, st: Step)
    requires Enabled(s, st)
    ensures EventOf(s, st).None? ==> Next(s, st).client == s.client
    ensures EventOf(s, st).Some? ==>
      C.Enabled(s.client, EventOf(s, st).value) && Next(s, st).client == C.Next(s.client, EventOf(s, st).value).0
  {
  }

  lemma ClientGrows(s: State, st: Step)
    requires C.Inv(s.client) && Enabled(s, st)
    ensures var n := Next(s, st);
            && C.Inv(n.client) && s.client.accepted <= n.client.accepted
            && (s.client.s.closed ==> n.client.s.closed)
            && (n.client.flush.NotStarted? <==> s.client.flush.NotStarted? && !(st.Act? && st.e.FlushBegin?))
  {
    ClientPart(s, st);
    if EventOf(s, st).Some? { ClientStep(s.client, EventOf(s, st).value); }
  }

  /** The registry part of a step. */
  lemma RegistryPart(s: State, st: Step)
    requires R.Inv(s.reg) && Enabled(s, st)
    ensures R.Inv(Next(s, st).reg)
    ensures !st.Registry? && !st.Join? ==> Next(s, st).reg == s.reg
  {
    match st
    case Registry(r) => R.InvStep(s.reg, r);
    case Join(blank) => R.InvStep(s.reg, R.DoRegister(s.me, s.lesson, blank));
    case _ =>
  }

  lemma LogStep(s: State, st: Step)
    requires LogOk(s) && Enabled(s, st)
    ensures LogOk(Next(s, st))
  {
    hide C.Next, C.Enabled, R.Next, R.Enabled;
  }

  /** Only a removal on behalf of this client takes it out of a room. */
  lemma HoldsStays(g: R.State, r: R.Step, room: nat, me: int)
    requires R.Enabled(g, r) && (r.DoRemove? ==> g.tasks[r.task].client != me)
    ensures R.Holds(g.hub, room, me) ==> R.Holds(R.Next(g, r).hub, room, me)
  {
  }

  function RoomOf(stage: Stage): nat {
    if stage.Located? then stage.room else 0
  }

  lemma LedgerStep(g: R.State, r: R.Step, me: int)
    requires R.Enabled(g, r)
    ensures me in g.ledger.home ==> me in R.Next(g, r).ledger.home && R.Next(g, r).ledger.home[me] == g.ledger.home[me]
    ensures me in R.Next(g, r).ledger.home ==> me in g.ledger.home || (r.DoRegister? && r.client == me)
    ensures me in R.Next(g, r).ledger.removals ==>
      me in g.ledger.removals || (r.DoRemove? && g.tasks[r.task].client == me)
    ensures forall t :: t in R.Next(g, r).tasks && R.Next(g, r).tasks[t].client == me ==>
      (t in g.tasks && g.tasks[t].client == me) || (r.DoLookup? && r.client == me)
  {
  }

  lemma SessionStep(s: State, st: Step)
    requires C.Inv(s.client) && R.Inv(s.reg) && SessionOk(s) && Enabled(s, st)
    ensures SessionOk(Next(s, st))
  {
    ClientGrows(s, st);
    match st
    case Registry(r) => LedgerStep(s.reg, r, s.me);
    case Join(blank) => LedgerStep(s.reg, R.DoRegister(s.me, s.lesson, blank), s.me);
    case _ =>
  }

  /** An open registered client is in the indexed room of its lesson. */
  lemma OpenIsHeld(s: State)
    requires R.Inv(s.reg) && SessionOk(s) && !s.phase.Unregistered? && !s.client.s.closed
    ensures var room := H.Lookup(s.reg.hub, s.lesson);
            room.Some? && R.Holds(s.reg.hub, room.value, s.me)
  {
    assert R.IsLive(s.reg.ledger, s.me);
    assert R.BelongsIn(s.reg.hub, s.reg.ledger, s.reg.hub.rooms[s.lesson], s.me);
  }

  /** While the client is open, no registry step takes it out of the room a broadcast found. */
  lemma ComingStaysInRoom(s: State, st: Step, b: nat, x: Entry)
    requires SessionOk(s) && Enabled(s, st) && Coming(s, b, x) && !s.client.s.closed && (st.Registry? || st.Join?)
    ensures Coming(Next(s, st), b, x)
  {
    hide C.Next, C.Enabled;
    var r := if st.Registry? then st.st else R.DoRegister(s.me, s.lesson, st.blank);
    HoldsStays(s.reg, r, RoomOf(s.casts[b].stage), s.me);
    hide R.Next, R.Enabled, R.Holds;
  }

  lemma DueIsReported(s: State, b: nat, x: Entry)
    requires C.Inv(s.client) && LogOk(s) && Enabled(s, Deliver(b)) && Coming(s, b, x)
    ensures var n := Next(s, Deliver(b));
            Coming(n, b, x) || Reported(n, x)
  {
    hide C.Inv;
    assert x in s.log && x.msg.messageId != "";
    ClientStep(s.client, ChatOf(x));
    hide C.Next, C.Enabled, LogOk;
  }

  /** Every other step leaves the broadcast alone, or is its eviction. */
  lemma ComingUntouched(s: State, st: Step, b: nat, x: Entry)
    requires C.Inv(s.client) && Enabled(s, st) && Coming(s, b, x)
    requires !st.Registry? && !st.Join? && st != Deliver(b)
    ensures Coming(Next(s, st), b, x) || Next(s, st).client.s.closed
  {
    hide C.Inv, C.Enabled, R.Next, R.Enabled;
    if st.Evict? { C.ClosedByClose(s.client, "slow consumer"); }
    hide C.Next;
  }

  /** What is coming stays coming until it is reported or the client is closed. */
  lemma ComingStep(s: State, st: Step, b: nat, x: Entry)
    requires Inv(s) && Enabled(s, st) && Coming(s, b, x)
    ensures var n := Next(s, st);
            Coming(n, b, x) || Reported(n, x) || n.client.s.closed
  {
    hide C.Inv, R.Inv, LogOk, LateOk, ReplayOk, SessionOk, Coming, Enabled, Next;
    ClientGrows(s, st);
    if st == Deliver(b) {
      DueIsReported(s, b, x);
    } else if st.Registry? || st.Join? {
      if !s.client.s.closed { ComingStaysInRoom(s, st, b, x); }
    } else {
      ComingUntouched(s, st, b, x);
    }
  }

  lemma LateStep(s: State, st: Step, x: Entry)
    requires Inv(s) && Enabled(s, st) && x in Next(s, st).late && x in Next(s, st).begun
    ensures var n := Next(s, st);
            Reported(n, x) || StillToCome(n, x) || n.client.s.closed
  {
    var n := Next(s, st);
    ClientGrows(s, st);
    if x in s.late && x in s.begun {
      if StillToCome(s, x) {
        var b :| Coming(s, b, x);
        ComingStep(s, st, b, x);
        if Coming(n, b, x) { assert StillToCome(n, x); }
      }
    } else {
      BegunNow(s, st, x);
    }
  }

  lemma BegunNow(s: State, st: Step, x: Entry)
    requires Inv(s) && Enabled(s, st) && x in Next(s, st).late && x in Next(s, st).begun
    requires !(x in s.late && x in s.begun)
    ensures StillToCome(Next(s, st), x) || Next(s, st).client.s.closed
  {
    assert st.Begin? && st.entry == x;
    if !s.client.s.closed {
      OpenIsHeld(s);
      assert Coming(Next(s, st), st.cast, x);
    }
  }

  lemma OfferStep(s: State)
    requires C.Inv(s.client) && LogOk(s) && ReplayOk(s) && Enabled(s, Offer)
    ensures ReplayOk(Next(s, Offer))
  {
    hide C.Inv, C.Next, LogOk, ReplayOk;
    var (m, ok) := C.Next(s.client, ReplayOf(s.phase.page[s.phase.next]));
    OfferReports(s, m, ok);
    OfferTaken(s, m, ok);
    hide C.Enabled;
  }

  lemma OfferReports(s: State, m: C.Machine, ok: bool)
    requires C.Inv(s.client) && LogOk(s) && ReplayOk(s) && Enabled(s, Offer)
    requires (m, ok) == C.Next(s.client, ReplayOf(s.phase.page[s.phase.next]))
    ensures s.client.accepted <= m.accepted
    ensures ok ==> s.phase.page[s.phase.next].msg.messageId in m.accepted
  {
    ClientStep(s.client, ReplayOf(s.phase.page[s.phase.next]));
  }

  lemma OfferTaken(s: State, m: C.Machine, ok: bool)
    requires ReplayOk(s) && s.phase.Offering? && s.phase.next < |s.phase.page| && s.client.accepted <= m.accepted
    requires ok ==> s.phase.page[s.phase.next].msg.messageId in m.accepted
    ensures ReplayOk(s.(client := m, phase := if ok then s.phase.(next := s.phase.next + 1, recovered := s.phase.recovered + 1)
                                              else Ended(false, false)))
  {
  }

  /** More reports never hurt. */
  lemma ReportsGrow(s: State, n: State)
    requires ReplayOk(s) && s.client.accepted <= n.client.accepted
    requires n.phase == s.phase && n.log == s.log && n.late == s.late && n.anchor == s.anchor
    ensures ReplayOk(n)
  {
  }

  lemma StoreStep(s: State, x: Entry)
    requires ReplayOk(s) && Enabled(s, Store(x))
    ensures ReplayOk(Next(s, Store(x)))
  {
  }

  lemma PageDoneStep(s: State)
    requires ReplayOk(s) && Enabled(s, PageDone)
    ensures ReplayOk(Next(s, PageDone))
  {
    var p := s.phase;
    forall x | x in s.log && x !in s.late && s.anchor < x.key
      ensures Reported(s, x) || (p.hasMore && p.page != [] && x.key > p.page[|p.page| - 1].key)
    {
      if x.key > p.cursor && x in p.page {
        var i :| 0 <= i < |p.page| && p.page[i] == x;
      }
    }
  }

  /** A step outside the replay, and not a store: it leaves phase, log and anchor alone. */
  predicate Outside(st: Step) {
    !st.Offer? && !st.PageDone? && !st.Store? && !st.Join? && !st.ReadPage? && !st.ReadFails?
  }

  lemma OutsideStep(s: State, st: Step)
    requires Enabled(s, st) && Outside(st)
    ensures var n := Next(s, st);
            n.phase == s.phase && n.log == s.log && n.late == s.late && n.anchor == s.anchor
  {
    hide C.Next, C.Enabled, R.Next, R.Enabled;
  }

  lemma PhaseStep(s: State, st: Step)
    requires SessionOk(s) && ReplayOk(s) && Enabled(s, st) && (st.Join? || st.ReadPage? || st.ReadFails?)
    ensures ReplayOk(Next(s, st))
  {
    hide C.Next, C.Enabled, R.Next, R.Enabled;
  }

  lemma ReplayStep(s: State, st: Step)
    requires C.Inv(s.client) && LogOk(s) && SessionOk(s) && ReplayOk(s) && Enabled(s, st)
    ensures ReplayOk(Next(s, st))
  {
    hide ReplayOk, LogOk, SessionOk, C.Inv, Enabled, Next;
    match st
    case Offer => OfferStep(s);
    case PageDone => PageDoneStep(s);
    case Store(x) => StoreStep(s, x);
    case Join(_) => PhaseStep(s, st);
    case ReadPage(_, _) => PhaseStep(s, st);
    case ReadFails => PhaseStep(s, st);
    case _ =>
      ClientGrows(s, st);
      OutsideStep(s, st);
      ReportsGrow(s, Next(s, st));
  }

  lemma InvStep(s: State, st: Step)
    requires Inv(s) && Enabled(s, st)
    ensures Inv(Next(s, st))
  {
    ClientGrows(s, st);
    RegistryPart(s, st);
    LogStep(s, st);
    SessionStep(s, st);
    ReplayStep(s, st);
    forall x | x in Next(s, st).late && x in Next(s, st).begun
      ensures Reported(Next(s, st), x) || StillToCome(Next(s, st), x) || Next(s, st).client.s.closed
    {
      LateStep(s, st, x);
    }
  }

  lemma {:induction false} RunInv(ss: seq<State>, steps: seq<Step>)
    requires IsRun(ss, steps)
    ensures Inv(ss[|steps|])
  {
    if steps == [] {
      assert R.IsRun([R.Init()], []);
      R.RunInv([R.Init()], []);
      assert C.IsRun([ss[0].client], []);
      C.RunInv([ss[0].client], []);
      assert C.Inv([ss[0].client][0]);
    } else {
      var k := |steps| - 1;
      assert IsRun(ss[..k + 1], steps[..k]);
      RunInv(ss[..k + 1], steps[..k]);
      InvStep(ss[k], steps[k]);
    }
  }

  /** The replay ended with `resume_complete`, un-truncated, and FinishResume returned true. */
  predicate Resumed(s: State) {
    s.phase == Ended(true, false) && s.client.flush.Succeeded?
  }

  /** No broadcast of x has started yet, or one will still hand it to this client (or is about
      to close the client because it could not). */
  ghost predicate Ahead(s: State, x: Entry) {
    x !in s.begun || StillToCome(s, x)
  }

  predicate WasPlaced(s: State, x: Entry) {
    x.msg.messageId in C.PlacedIds(s.client.s.placed)
  }

  /** MAIN RESULT: gap-free resume. In every interleaving of storing, broadcasting, paging and
      flushing, an open client that has resumed has had every entry after its anchor put on
      its send queue, or that entry's delivery is still to come. Entries may be stored at
      any place in the history order, not only at its end. */
  lemma GapFreeResume(ss: seq<State>, steps: seq<Step>, x: Entry)
    requires IsRun(ss, steps)
    requires Resumed(ss[|steps|]) && !ss[|steps|].client.s.closed
    requires x in ss[|steps|].log && x.key > ss[|steps|].anchor
    ensures WasPlaced(ss[|steps|], x) || (x in ss[|steps|].late && Ahead(ss[|steps|], x))
  {
    RunInv(ss, steps);
    var s := ss[|steps|];
    if x !in s.late { assert Reported(s, x); }
    if Reported(s, x) {
      assert C.Unsent(s.client) == [];
      assert x.msg.messageId in C.PlacedIds(s.client.s.placed) + C.DeliveryIds(C.Unsent(s.client));
    }
  }
}
