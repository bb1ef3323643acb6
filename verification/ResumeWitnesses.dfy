/** Runs of the resume protocol, step by step: it finishes; the hub may reorder; a message that
    ranks before the anchor though it is numbered after it is missed; and a number that belongs
    to no message stops the ordering buffer. */
module ResumeWitnesses {
  import opened ChatMessages
  import opened Delivery
  import opened EndToEnd
  import opened Provenance
  import opened Wrappers
  import H = RoomRegistry
  import R = RoomRegistryRuns
  import K = ChatClient
  import C = ChatClientRuns
  import F = ChatFlush
  import O = OrderBuffer
  import B = OrderBufferRuns
  import G = OrderBufferGaps

  lemma Then(ss: seq<State>, steps: seq<Step>, st: Step) returns (more: seq<State>, longer: seq<Step>)
    requires IsRun(ss, steps) && |ss| == |steps| + 1 && Enabled(ss[|steps|], st)
    ensures longer == steps + [st] && IsRun(more, longer) && |more| == |longer| + 1
    ensures more[|longer|] == Next(ss[|steps|], st)
  {
    more, longer := ss + [Next(ss[|steps|], st)], steps + [st];
  }

  const CFG: K.Config := K.RawConfig(8, 16)

  /** Before the client joins: these entries are stored, nothing else has happened. */
  ghost predicate Stored(s: State, anchor: int, log: set<Entry>) {
    s == Init(7, 1, anchor, CFG).(log := log)
  }

  lemma Started(anchor: int) returns (ss: seq<State>, steps: seq<Step>)
    ensures IsRun(ss, steps) && |ss| == |steps| + 1 && Stored(ss[|steps|], anchor, {})
  {
    ss, steps := [Init(7, 1, anchor, CFG)], [];
  }

  lemma StoreOne(s: State, anchor: int, log: set<Entry>, x: Entry)
    requires Stored(s, anchor, log) && FreshEntry(log, x)
    ensures Enabled(s, Store(x)) && Stored(Next(s, Store(x)), anchor, log + {x})
  {
  }

  /** The client has joined and its replay is about to read from the anchor. */
  ghost predicate Joined(s: State, anchor: int, log: set<Entry>) {
    && s == Init(7, 1, anchor, CFG).(log := log, reg := s.reg, phase := Paging(anchor, 0))
    && s.reg.hub == H.Hub(map[1 := 0], map[0 := H.RoomState(1, {7})])
  }

  lemma JoinOne(s: State, anchor: int, log: set<Entry>)
    requires Stored(s, anchor, log)
    ensures Enabled(s, Join(0)) && Joined(Next(s, Join(0)), anchor, log)
  {
    hide C.Next, C.Enabled;
  }

  /** The replay has been read to its end and the flush is next. */
  ghost predicate ReadyToEnd(s: State) {
    && s.phase.Offering? && s.phase.next == |s.phase.page| && !s.phase.hasMore && !s.client.s.closed
    && s.client.flush.NotStarted?
  }

  lemma EndsReplay(s: State)
    requires ReadyToEnd(s)
    ensures Enabled(s, PageDone) && Next(s, PageDone) == s.(phase := Ended(true, false))
    ensures Enabled(s.(phase := Ended(true, false)), Act(C.FlushBegin))
  {
    hide C.Next;
  }

  // --------------------------------------------------------- a message after the anchor

  lemma FlushNothing(s: State)
    requires s.phase == Ended(true, false) && !s.client.s.closed && s.client.s.pendingLive == [] && s.client.flush.NotStarted?
    ensures Enabled(s, Act(C.FlushBegin)) && Enabled(Next(s, Act(C.FlushBegin)), Act(C.FlushEnd))
    ensures var n := Next(Next(s, Act(C.FlushBegin)), Act(C.FlushEnd));
            Resumed(n) && !n.client.s.closed && n.client.s.placed == s.client.s.placed
            && n == s.(client := n.client)
  {
  }

  lemma FinishEmpty(ss: seq<State>, steps: seq<Step>) returns (more: seq<State>, longer: seq<Step>)
    requires IsRun(ss, steps) && |ss| == |steps| + 1 && ReadyToEnd(ss[|steps|]) && ss[|steps|].client.s.pendingLive == []
    ensures IsRun(more, longer) && |more| == |longer| + 1
    ensures var s, n := ss[|steps|], more[|longer|];
            && Resumed(n) && !n.client.s.closed && n.client.s.placed == s.client.s.placed
            && n == s.(client := n.client, phase := n.phase)
  {
    hide IsRun, Next, Enabled, Resumed;
    EndsReplay(ss[|steps|]);
    more, longer := Then(ss, steps, PageDone);
    FlushNothing(more[|longer|]);
    more, longer := Then(more, longer, Act(C.FlushBegin));
    more, longer := Then(more, longer, Act(C.FlushEnd));
  }

  lemma OfferOnce(s: State, x: Entry)
    requires s.phase == Offering(0, [x], 0, false, 0) && s.client == C.Start(CFG, true) && x.msg.messageId != ""
    ensures Enabled(s, Offer)
    ensures var n := Next(s, Offer);
            && n == s.(client := n.client, phase := n.phase)
            && n.client.s.placed == [K.Item(K.Replayed, x.msg.messageId, x.msg)]
            && ReadyToEnd(n) && n.client.s.pendingLive == []
  {
    var m := C.Next(s.client, ReplayOf(x)).0;
    assert m.s.placed == [K.Item(K.Replayed, x.msg.messageId, x.msg)];
  }

  lemma ReadOne(s: State, x: Entry)
    requires Joined(s, 0, {x}) && x.key > 0
    ensures Enabled(s, ReadPage([x], false))
    ensures Next(s, ReadPage([x], false)) == s.(phase := Offering(0, [x], 0, false, 0))
  {
    hide C.Next, C.Enabled, R.Next, R.Enabled;
    assert IsPage({x}, 0, 100, [x], false);
  }

  /** A message stored before the client joins is replayed and the client resumes. */
  lemma ResumeReachable(x: Entry) returns (ss: seq<State>, steps: seq<Step>)
    requires x.msg.messageId != "" && x.key > 0
    ensures IsRun(ss, steps) && |ss| == |steps| + 1
    ensures var s := ss[|steps|];
            && AtRest(s) && s.log == {x} && s.anchor == 0
            && s.client.s.placed == [K.Item(K.Replayed, x.msg.messageId, x.msg)]
  {
    hide IsRun, Next, Enabled, Resumed;
    ss, steps := Started(0);
    StoreOne(ss[|steps|], 0, {}, x);
    ss, steps := Then(ss, steps, Store(x));
    JoinOne(ss[|steps|], 0, {x});
    ss, steps := Then(ss, steps, Join(0));
    ReadOne(ss[|steps|], x);
    ss, steps := Then(ss, steps, ReadPage([x], false));
    OfferOnce(ss[|steps|], x);
    ss, steps := Then(ss, steps, Offer);
    ss, steps := FinishEmpty(ss, steps);
  }

  // ------------------------------------------------------------- a number nobody got

  const LONE := Entry(Message("c", 3, ""), 5)

  /** The number 2 was allocated but never stored, and c got 3. The client has resumed, c is on
      its queue, and nothing was missed; but the buffer, started at 2, shows nothing: it holds c
      and has asked for 2. */
  lemma LostNumberStopsTheBuffer() returns (ss: seq<State>, steps: seq<Step>)
    ensures IsRun(ss, steps) && |ss| == |steps| + 1
    ensures var s := ss[|steps|];
            && AtRest(s) && s.log == {LONE} && WasPlaced(s, LONE) && NoneMissed(ss, steps, s, 2) && !NoHole(s.log, 2)
            && var b := Browser(s, 2, 256);
               b.shown == [] && b.pending == map[3 := LONE.msg] && b.gaps == [(2, 2)]
  {
    ss, steps := ResumeReachable(LONE);
    var s := ss[|steps|];
    hide IsRun, AtRest;
    OneFed(s.client.s.placed, LONE.msg);
    LoneIsHeld(LONE.msg);
    assert LONE in s.log && 2 !in LogNumbers(s.log);
    assert s.client.s.placed[0].messageId == LONE.msg.messageId;
  }

  lemma OneFed(placed: seq<K.Item>, m: Message)
    requires placed == [K.Item(K.Replayed, m.messageId, m)]
    ensures Feed(placed) == [Some(m)]
  {
    assert placed[..0] == [];
  }

  lemma LoneIsHeld(m: Message)
    requires m.lessonSeq == 3 && m.messageId != ""
    ensures var b := B.Run(O.Initial(2, 256), [Some(m)]).0;
            b.shown == [] && b.pending == map[3 := m] && b.gaps == [(2, 2)]
  {
    var s0 := O.Initial(2, 256);
    G.NothingRun(s0);
    B.RunOneMore(s0, [], Some(m));
    G.HoldOne(s0, m);
    assert [] + [Some(m)] == [Some(m)];
  }

  // ------------------------------------------------- numbered after, ranked before

  lemma ReadNothing(s: State, log: set<Entry>)
    requires Joined(s, 2, log) && forall x :: x in log ==> x.key <= 2
    ensures Enabled(s, ReadPage([], false))
    ensures Next(s, ReadPage([], false)) == s.(phase := Offering(2, [], 0, false, 0))
  {
    hide C.Next, C.Enabled, R.Next, R.Enabled;
    assert IsPage(log, 2, 100, [], false);
  }

  /** a is the anchor, numbered 1 and ranked 2; b got the number 2 but an earlier creation
      time, so it ranks 1. The client resumes from a and is never sent b; its buffer, started
      at 2, shows nothing. */
  lemma RankedBeforeAnchorIsMissed() returns (ss: seq<State>, steps: seq<Step>)
    ensures IsRun(ss, steps) && |ss| == |steps| + 1
    ensures var s, b := ss[|steps|], Message("b", 2, "");
            && AtRest(s) && NumberedFrom(s.log, 2, [b])
            && s.client.s.placed == [] && !NoneMissed(ss, steps, s, 2)
            && Browser(s, 2, 256).shown == []
  {
    var a, b := Entry(Message("a", 1, ""), 2), Entry(Message("b", 2, ""), 1);
    ss, steps := AnchorRun(a, b);
    var s := ss[|steps|];
    hide IsRun, Resumed;
    assert NumberedFrom(s.log, 2, [b.msg]);
    PlacedIffReached(ss, steps, b);
    assert b in s.log && !WasPlaced(s, b);
  }

  lemma AnchorRun(a: Entry, b: Entry) returns (ss: seq<State>, steps: seq<Step>)
    requires a == Entry(Message("a", 1, ""), 2) && b == Entry(Message("b", 2, ""), 1)
    ensures IsRun(ss, steps) && |ss| == |steps| + 1
    ensures var s := ss[|steps|];
            && AtRest(s) && s.log == {a, b} && s.anchor == 2
            && s.client.s.placed == []
  {
    hide IsRun, Next, Enabled, Resumed;
    ss, steps := Started(2);
    StoreOne(ss[|steps|], 2, {}, a);
    ss, steps := Then(ss, steps, Store(a));
    StoreOne(ss[|steps|], 2, {} + {a}, b);
    ss, steps := Then(ss, steps, Store(b));
    JoinOne(ss[|steps|], 2, {} + {a} + {b});
    ss, steps := Then(ss, steps, Join(0));
    ReadNothing(ss[|steps|], {} + {a} + {b});
    ss, steps := Then(ss, steps, ReadPage([], false));
    ss, steps := FinishEmpty(ss, steps);
  }

  // ---------------------------------------------------------------- out of lesson order

  const A := Message("a", 1, "")
  const B2 := Message("b", 2, "")
  const C3 := Message("c", 3, "")
  const EA := Entry(A, 1)
  const EB := Entry(B2, 2)
  const EC := Entry(C3, 3)

  /** The client with b held back; then with a replayed; then with c replayed. */
  function HoldsB(): C.Machine {
    var m := C.Start(CFG, true);
    m.(s := m.s.(pendingLive := [K.Delivery("b", 2, B2)], seen := {"b"}, seenOrder := ["b"], remembered := ["b"]),
       accepted := {"b"})
  }

  function ThenA(): C.Machine {
    var m := HoldsB();
    m.(s := m.s.(send := [A], placed := [K.Item(K.Replayed, "a", A)], seen := {"b", "a"}, seenOrder := ["b", "a"],
                 remembered := ["b", "a"]),
       accepted := {"b", "a"})
  }

  function ThenC(): C.Machine {
    var m := ThenA();
    m.(s := m.s.(send := [A, C3], placed := [K.Item(K.Replayed, "a", A), K.Item(K.Replayed, "c", C3)],
                 seen := {"b", "a", "c"}, seenOrder := ["b", "a", "c"], remembered := ["b", "a", "c"]),
       accepted := {"b", "a", "c"})
  }

  lemma ChatHeld()
    ensures C.Enabled(C.Start(CFG, true), ChatOf(EB)) && C.Next(C.Start(CFG, true), ChatOf(EB)) == (HoldsB(), true)
  {
    var none: set<string>, blank: seq<string>, held: seq<K.Delivery> := {}, [], [];
    assert none + {"b"} == {"b"} && blank + ["b"] == ["b"];
    assert held + [K.Delivery("b", 2, B2)] == [K.Delivery("b", 2, B2)];
  }

  lemma AReplayed()
    ensures C.Enabled(HoldsB(), ReplayOf(EA)) && C.Next(HoldsB(), ReplayOf(EA)) == (ThenA(), true)
  {
    var queue: seq<Message>, placed: seq<K.Item> := [], [];
    assert {"b"} + {"a"} == {"b", "a"} && ["b"] + ["a"] == ["b", "a"];
    assert queue + [A] == [A] && placed + [K.Item(K.Replayed, "a", A)] == [K.Item(K.Replayed, "a", A)];
  }

  lemma BSuppressed()
    ensures C.Enabled(ThenA(), ReplayOf(EB)) && C.Next(ThenA(), ReplayOf(EB)) == (ThenA(), true)
  {
    assert "b" in ThenA().s.seen;
    assert {"b", "a"} + {"b"} == {"b", "a"};
  }

  lemma CReplayed()
    ensures C.Enabled(ThenA(), ReplayOf(EC)) && C.Next(ThenA(), ReplayOf(EC)) == (ThenC(), true)
  {
    assert {"b", "a"} + {"c"} == {"b", "a", "c"} && ["b", "a"] + ["c"] == ["b", "a", "c"];
    assert [A] + [C3] == [A, C3];
    assert [K.Item(K.Replayed, "a", A)] + [K.Item(K.Replayed, "c", C3)] == [K.Item(K.Replayed, "a", A), K.Item(K.Replayed, "c", C3)];
  }

  lemma BroadcastHeld(s: State)
    requires Joined(s, 0, {EA, EB, EC})
    ensures Enabled(s, Begin(0, EB)) && Enabled(Next(s, Begin(0, EB)), Snapshot(0))
    ensures Enabled(Next(Next(s, Begin(0, EB)), Snapshot(0)), Deliver(0))
    ensures Next(Next(Next(s, Begin(0, EB)), Snapshot(0)), Deliver(0)) == s.(client := HoldsB(), begun := {EB})
  {
    hide R.Next, R.Enabled;
    ChatHeld();
    hide C.Next, C.Enabled;
    var s1 := Next(s, Begin(0, EB));
    assert s1.casts == map[0 := Cast(EB, Located(0))] && s1.begun == {EB};
    var s2 := Next(s1, Snapshot(0));
    assert s2.casts == map[0 := Cast(EB, Sending(true))];
    assert s2.casts - {0} == map[];
  }

  lemma OfferShape(s: State, m: C.Machine)
    requires s.phase.Offering? && s.phase.next < |s.phase.page| && !s.client.flush.Running?
    requires C.Enabled(s.client, ReplayOf(s.phase.page[s.phase.next]))
    requires C.Next(s.client, ReplayOf(s.phase.page[s.phase.next])) == (m, true)
    ensures Enabled(s, Offer)
    ensures Next(s, Offer) == s.(client := m, phase := s.phase.(next := s.phase.next + 1, recovered := s.phase.recovered + 1))
  {
    hide C.Next, C.Enabled;
  }

  lemma ReadThree(s: State)
    requires s.phase == Paging(0, 0) && s.log == {EA, EB, EC}
    ensures Enabled(s, ReadPage([EA, EB, EC], false))
    ensures Next(s, ReadPage([EA, EB, EC], false)) == s.(phase := Offering(0, [EA, EB, EC], 0, false, 0))
  {
    hide C.Next, C.Enabled, R.Next, R.Enabled;
    assert IsPage(s.log, 0, 100, [EA, EB, EC], false);
  }

  lemma OffersThree(ss: seq<State>, steps: seq<Step>) returns (more: seq<State>, longer: seq<Step>)
    requires IsRun(ss, steps) && |ss| == |steps| + 1
    requires ss[|steps|].phase == Offering(0, [EA, EB, EC], 0, false, 0) && ss[|steps|].client == HoldsB()
    ensures IsRun(more, longer) && |more| == |longer| + 1
    ensures more[|longer|] == ss[|steps|].(client := ThenC(), phase := Offering(0, [EA, EB, EC], 3, false, 3))
  {
    hide IsRun, Next, Enabled, C.Next, C.Enabled;
    AReplayed();
    OfferShape(ss[|steps|], ThenA());
    more, longer := Then(ss, steps, Offer);
    BSuppressed();
    OfferShape(more[|longer|], ThenA());
    more, longer := Then(more, longer, Offer);
    CReplayed();
    OfferShape(more[|longer|], ThenC());
    more, longer := Then(more, longer, Offer);
  }

  lemma FlushesB(s: State)
    requires s.phase == Ended(true, false) && s.client == ThenC()
    ensures Enabled(s, Act(C.FlushBegin)) && Enabled(Next(s, Act(C.FlushBegin)), Act(C.FlushNext))
    ensures Enabled(Next(Next(s, Act(C.FlushBegin)), Act(C.FlushNext)), Act(C.FlushEnd))
    ensures var n := Next(Next(Next(s, Act(C.FlushBegin)), Act(C.FlushNext)), Act(C.FlushEnd));
            && Resumed(n) && !n.client.s.closed && n == s.(client := n.client)
            && n.client.s.placed == [K.Item(K.Replayed, "a", A), K.Item(K.Replayed, "c", C3), K.Item(K.Flushed, "b", B2)]
  {
    var m1 := C.Next(s.client, C.FlushBegin).0;
    var m2 := C.Next(m1, C.FlushNext).0;
    assert "b" in m1.s.seen;
    assert m2.s.placed == [K.Item(K.Replayed, "a", A), K.Item(K.Replayed, "c", C3), K.Item(K.Flushed, "b", B2)];
  }

  lemma ThreeStored() returns (ss: seq<State>, steps: seq<Step>)
    ensures IsRun(ss, steps) && |ss| == |steps| + 1 && Joined(ss[|steps|], 0, {EA, EB, EC})
  {
    hide IsRun, Next, Enabled;
    ss, steps := Started(0);
    StoreOne(ss[|steps|], 0, {}, EA);
    ss, steps := Then(ss, steps, Store(EA));
    StoreOne(ss[|steps|], 0, {} + {EA}, EB);
    ss, steps := Then(ss, steps, Store(EB));
    StoreOne(ss[|steps|], 0, {} + {EA} + {EB}, EC);
    ss, steps := Then(ss, steps, Store(EC));
    assert {} + {EA} + {EB} + {EC} == {EA, EB, EC};
    JoinOne(ss[|steps|], 0, {EA, EB, EC});
    ss, steps := Then(ss, steps, Join(0));
  }

  lemma ThreeReplayed() returns (ss: seq<State>, steps: seq<Step>)
    ensures IsRun(ss, steps) && |ss| == |steps| + 1
    ensures var s := ss[|steps|];
            && s.phase == Offering(0, [EA, EB, EC], 3, false, 3) && s.client == ThenC()
            && s.log == {EA, EB, EC} && s.late == {} && s.casts == map[] && s.anchor == 0
  {
    hide IsRun, Next, Enabled;
    ss, steps := ThreeStored();
    BroadcastHeld(ss[|steps|]);
    ss, steps := Then(ss, steps, Begin(0, EB));
    ss, steps := Then(ss, steps, Snapshot(0));
    ss, steps := Then(ss, steps, Deliver(0));
    ReadThree(ss[|steps|]);
    ss, steps := Then(ss, steps, ReadPage([EA, EB, EC], false));
    ss, steps := OffersThree(ss, steps);
  }

  /** The hub may reorder: 2 is broadcast live while the client is resuming and held back, 1 and
      3 are replayed, and the queue gets 1, 3, 2. The run meets every hypothesis of the
      end-to-end theorem, so the browser shows 1, 2, 3. */
  lemma HubMayReorder() returns (ss: seq<State>, steps: seq<Step>)
    ensures IsRun(ss, steps) && |ss| == |steps| + 1
    ensures var s := ss[|steps|];
            && AtRest(s) && SegmentOf(s.log, s.anchor, 1, [A, B2, C3])
            && s.client.s.placed == [K.Item(K.Replayed, "a", A), K.Item(K.Replayed, "c", C3), K.Item(K.Flushed, "b", B2)]
            && !F.InOrder(s.client.s.placed)
            && Browser(s, 1, 256).shown == [A, B2, C3]
  {
    ss, steps := ReorderingRun();
    var s := ss[|steps|];
    hide IsRun, Resumed, Next, Enabled;
    assert s.client.s.placed[1].payload.lessonSeq == 3 && s.client.s.placed[2].payload.lessonSeq == 2;
    ThreeAreSegment();
    ShownInLessonOrder(ss, steps, 1, [A, B2, C3], 256);
  }

  lemma ThreeAreSegment()
    ensures SegmentOf({EA, EB, EC}, 0, 1, [A, B2, C3])
  {
    assert EA.msg == A && EB.msg == B2 && EC.msg == C3;
  }

  lemma ReorderingRun() returns (ss: seq<State>, steps: seq<Step>)
    ensures IsRun(ss, steps) && |ss| == |steps| + 1
    ensures var s := ss[|steps|];
            && AtRest(s) && s.log == {EA, EB, EC} && s.anchor == 0
            && s.client.s.placed == [K.Item(K.Replayed, "a", A), K.Item(K.Replayed, "c", C3), K.Item(K.Flushed, "b", B2)]
  {
    hide IsRun, Next, Enabled, Resumed;
    ss, steps := ThreeReplayed();
    EndsReplay(ss[|steps|]);
    ss, steps := Then(ss, steps, PageDone);
    FlushesB(ss[|steps|]);
    ss, steps := Then(ss, steps, Act(C.FlushBegin));
    ss, steps := Then(ss, steps, Act(C.FlushNext));
    ss, steps := Then(ss, steps, Act(C.FlushEnd));
  }
}
