/** A flush that nothing disturbs: when it places everything that was accepted, and when what
    it places is in lesson order. */
module ChatFlush {
  import opened ChatMessages
  import opened ChatClient
  import opened ChatClientRuns

  /** The held-back messages that the queue has room for, and the others. */
  function Fitting(s: State): seq<Delivery> {
    if |s.pendingLive| <= Room(s) then s.pendingLive else s.pendingLive[..Room(s)]
  }

  function Left(s: State): seq<Delivery> {
    if |s.pendingLive| <= Room(s) then [] else s.pendingLive[Room(s)..]
  }

  lemma {:induction false} FlushItemAt(ds: seq<Delivery>, i: nat)
    requires i < |ds|
    ensures |FlushItems(ds)| == |ds|
    ensures FlushItems(ds)[i] == Item(Flushed, ds[i].messageId, ds[i].payload)
  {
    if |ds| > 1 { FlushItemAt(ds[1..], if i > 0 then i - 1 else 0); }
  }

  lemma {:induction false} FlushItemsUpTo(ds: seq<Delivery>, k: nat)
    requires k <= |ds|
    ensures |FlushItems(ds)| == |ds| && FlushItems(ds[..k]) == FlushItems(ds)[..k]
  {
    if k == 0 {
      FlushLength(ds);
    } else {
      FlushItemsUpTo(ds[1..], k - 1);
      assert ds[..k][1..] == ds[1..][..k - 1];
    }
  }

  /** What the flush adds to the queue's history, and its result. */
  lemma FlushPlaces(s: State)
    ensures var (t, ok) := FinishResumeStep(s);
            t.placed == s.placed + FlushItems(Fitting(s)) && (ok <==> Left(s) == [])
  {
    var u := s.(resuming := false);
    FlushFromExactly(u, 0);
    assert u.pendingLive[0..] == s.pendingLive;
    if |s.pendingLive| > Room(s) { FlushItemsUpTo(s.pendingLive, Room(s)); }
  }

  // -------------------------------------------------------------- nothing is lost

  lemma {:induction false} CountFlushed(items: seq<Item>, ds: seq<Delivery>, id: string)
    ensures Count(items + FlushItems(ds), id) == Count(items, id) + CountHeld(ds, id)
    decreases ds
  {
    if ds == [] {
      assert items + [] == items;
    } else {
      var x := Item(Flushed, ds[0].messageId, ds[0].payload);
      CountSnoc(items, x, id);
      CountFlushed(items + [x], ds[1..], id);
      assert items + ([x] + FlushItems(ds[1..])) == (items + [x]) + FlushItems(ds[1..]);
    }
  }

  lemma {:induction false} CountHeldAppend(a: seq<Delivery>, b: seq<Delivery>, id: string)
    ensures CountHeld(a + b, id) == CountHeld(a, id) + CountHeld(b, id)
  {
    if a == [] {
      assert a + b == b;
    } else {
      CountHeldAppend(a[1..], b, id);
      assert (a + b)[1..] == a[1..] + b;
    }
  }

  lemma {:induction false} NoneHeldIff(ds: seq<Delivery>, id: string)
    ensures CountHeld(ds, id) == 0 <==> forall d :: d in ds ==> d.messageId != id
  {
    if ds != [] {
      NoneHeldIff(ds[1..], id);
      assert ds == [ds[0]] + ds[1..];
    }
  }

  /** One id after the flush: placed once if accepted, unless it is among those left over. */
  lemma AfterFlush(m: Machine, id: string)
    requires m.flush.NotStarted? && OneCopy(m, id)
    ensures Count(FinishResumeStep(m.s).0.placed, id) + CountHeld(Left(m.s), id) == if id in m.accepted then 1 else 0
  {
    hide Count, CountHeld, FinishResumeStep;
    FlushPlaces(m.s);
    CountFlushed(m.s.placed, Fitting(m.s), id);
    assert Fitting(m.s) + Left(m.s) == m.s.pendingLive;
    CountHeldAppend(Fitting(m.s), Left(m.s), id);
  }

  ghost predicate AllPlaced(accepted: set<string>, placed: seq<Item>) {
    forall id :: id in accepted ==> Count(placed, id) == 1
  }

  ghost predicate AllBlank(ds: seq<Delivery>) {
    forall d :: d in ds ==> d.messageId == ""
  }

  /** MAIN RESULT: a flush that returns false leaves accepted messages that no later call will
      send. From every reachable machine about to flush, undisturbed and within the window,
      every accepted id ends up placed, exactly once, if and only if all held messages beyond
      the room left on the queue carry a blank id. */
  lemma FlushLosesNothingIff(ms: seq<Machine>, es: seq<Event>)
    requires IsRun(ms, es) && WithinWindow(ms[|es|]) && ms[|es|].flush.NotStarted?
    ensures var m := ms[|es|];
            AllPlaced(m.accepted, FinishResumeStep(m.s).0.placed) <==> AllBlank(Left(m.s))
  {
    var m := ms[|es|];
    RunInv(ms, es);
    RunOnce(ms, es);
    var placed := FinishResumeStep(m.s).0.placed;
    forall id | id != "" ensures Count(placed, id) + CountHeld(Left(m.s), id) == if id in m.accepted then 1 else 0 {
      assert OneCopy(m, id);
      AfterFlush(m, id);
    }
    hide IsRun, Count, CountHeld, FinishResumeStep;
    forall d | d in Left(m.s) && d.messageId != "" ensures d.messageId in m.accepted && Count(placed, d.messageId) == 0 {
      assert d.messageId in DeliveryIds(m.s.pendingLive);
      NoneHeldIff(Left(m.s), d.messageId);
    }
    forall id | id in m.accepted && AllBlank(Left(m.s)) ensures Count(placed, id) == 1 {
      NoneHeldIff(Left(m.s), id);
    }
  }

  /** With no blank id held back this is: if and only if everything held fits the queue, which
      is also when FinishResume returns true. */
  lemma FlushLosesNothingIfItFits(ms: seq<Machine>, es: seq<Event>)
    requires IsRun(ms, es) && WithinWindow(ms[|es|]) && ms[|es|].flush.NotStarted?
    requires "" !in DeliveryIds(ms[|es|].s.pendingLive)
    ensures var s := ms[|es|].s;
            && (AllPlaced(ms[|es|].accepted, FinishResumeStep(s).0.placed) <==> |s.pendingLive| <= Room(s))
            && (FinishResumeStep(s).1 <==> |s.pendingLive| <= Room(s))
  {
    var s := ms[|es|].s;
    FlushLosesNothingIff(ms, es);
    FlushPlaces(s);
    if Left(s) != [] {
      assert Left(s)[0] == s.pendingLive[Room(s)];
      assert Left(s)[0].messageId in DeliveryIds(s.pendingLive);
    }
    hide IsRun, FinishResumeStep, AllPlaced;
  }

  lemma Extend(ms: seq<Machine>, es: seq<Event>, e: Event) returns (more: seq<Machine>, longer: seq<Event>)
    requires IsRun(ms, es) && |ms| == |es| + 1 && Enabled(ms[|es|], e)
    ensures longer == es + [e] && IsRun(more, longer) && |more| == |longer| + 1
    ensures more[|longer|] == Next(ms[|es|], e).0
  {
    more, longer := ms + [Next(ms[|es|], e).0], es + [e];
  }

  /** With room for one: a is held back, the replayed b fills the queue, the flush fails, and
      a is never sent though its EnqueueChat returned true. */
  lemma FlushCanFail() returns (ms: seq<Machine>, es: seq<Event>)
    ensures IsRun(ms, es) && |ms| == |es| + 1
    ensures var m := ms[|es|];
            m.flush.Failed? && "a" in m.accepted && Count(m.s.placed, "a") == 0
  {
    hide IsRun, Count;
    var a, b := Message("a", 1, ""), Message("b", 2, "");
    ms, es := HeldBehindReplayed(a, b);
    hide RememberStep;
    ms, es := Extend(ms, es, FlushBegin);
    ms, es := Extend(ms, es, FlushNext);
    CountSnoc([], Item(Replayed, "b", b), "a");
    assert [] + [Item(Replayed, "b", b)] == [Item(Replayed, "b", b)];
    assert Count([], "a") == 0 by { CountNothing("a"); }
  }

  lemma CountNothing(id: string)
    ensures Count([], id) == 0
  {
  }

  lemma HeldBehindReplayed(a: Message, b: Message) returns (ms: seq<Machine>, es: seq<Event>)
    ensures IsRun(ms, es) && |ms| == |es| + 1
    ensures var m := ms[|es|];
            && m.flush.NotStarted? && "a" in m.accepted && !m.s.closed && |m.s.send| == m.s.cfg.sendQueueSize
            && m.s.pendingLive == [Delivery("a", 1, a)] && m.s.placed == [Item(Replayed, "b", b)]
  {
    ms, es := [Start(RawConfig(1, 4), true)], [];
    assert IsRun(ms, es);
    hide IsRun;
    ms, es := Extend(ms, es, Chat("a", a, 1));
    assert ms[|es|].s.seen == {"a"} && ms[|es|].s.pendingLive == [Delivery("a", 1, a)];
    ms, es := Extend(ms, es, Replay("b", b));
    assert ms[|es|].s.placed == [Item(Replayed, "b", b)];
  }

  // ------------------------------------------------------------------ lesson order

  /** The chat messages put on the queue so far are in lesson order. */
  ghost predicate InOrder(items: seq<Item>) {
    forall i, j :: 0 <= i < j < |items| && !items[i].origin.Control? && !items[j].origin.Control? ==>
      items[i].payload.lessonSeq <= items[j].payload.lessonSeq
  }

  ghost predicate HeldInOrder(ds: seq<Delivery>) {
    forall i, j :: 0 <= i < j < |ds| ==> ds[i].payload.lessonSeq <= ds[j].payload.lessonSeq
  }

  /** No chat message on the queue has a greater number than one of these. */
  ghost predicate NoneAbove(items: seq<Item>, ds: seq<Delivery>) {
    forall i, j :: 0 <= i < |items| && !items[i].origin.Control? && 0 <= j < |ds| ==>
      items[i].payload.lessonSeq <= ds[j].payload.lessonSeq
  }

  lemma OrderAppendIff(items: seq<Item>, ds: seq<Delivery>, all: seq<Item>)
    requires all == items + FlushItems(ds)
    ensures InOrder(all) <==> InOrder(items) && HeldInOrder(ds) && NoneAbove(items, ds)
  {
    FlushLength(ds);
    forall k | |items| <= k < |all| ensures all[k] == Item(Flushed, ds[k - |items|].messageId, ds[k - |items|].payload) {
      FlushItemAt(ds, k - |items|);
    }
    hide FlushItems;
    assert forall i :: 0 <= i < |items| ==> all[i] == items[i];
    if InOrder(all) { OrderedParts(items, ds, all); }
    if InOrder(items) && HeldInOrder(ds) && NoneAbove(items, ds) { OrderedWhole(items, ds, all); }
  }

  /** `all` is the entries followed by the held messages. */
  ghost predicate Joined(items: seq<Item>, ds: seq<Delivery>, all: seq<Item>) {
    && |all| == |items| + |ds|
    && (forall i :: 0 <= i < |items| ==> all[i] == items[i])
    && forall k :: |items| <= k < |all| ==>
         all[k] == Item(Flushed, ds[k - |items|].messageId, ds[k - |items|].payload)
  }

  lemma OrderedParts(items: seq<Item>, ds: seq<Delivery>, all: seq<Item>)
    requires Joined(items, ds, all) && InOrder(all)
    ensures InOrder(items) && HeldInOrder(ds) && NoneAbove(items, ds)
  {
    forall i, j | 0 <= i < j < |ds| ensures ds[i].payload.lessonSeq <= ds[j].payload.lessonSeq {
      var k, l := |items| + i, |items| + j;
      assert all[k].payload == ds[i].payload && all[l].payload == ds[j].payload;
    }
    forall i, j | 0 <= i < |items| && !items[i].origin.Control? && 0 <= j < |ds|
      ensures items[i].payload.lessonSeq <= ds[j].payload.lessonSeq
    {
      var l := |items| + j;
      assert all[i].payload == items[i].payload && all[l].payload == ds[j].payload;
    }
  }

  lemma OrderedWhole(items: seq<Item>, ds: seq<Delivery>, all: seq<Item>)
    requires Joined(items, ds, all) && InOrder(items) && HeldInOrder(ds) && NoneAbove(items, ds)
    ensures InOrder(all)
  {
    forall i, j | 0 <= i < j < |all| && !all[i].origin.Control? && !all[j].origin.Control?
      ensures all[i].payload.lessonSeq <= all[j].payload.lessonSeq
    {
      if j < |items| {
        assert all[i] == items[i] && all[j] == items[j];
      } else if i < |items| {
        assert all[i] == items[i] && all[j].payload == ds[j - |items|].payload;
      } else {
        assert all[i].payload == ds[i - |items|].payload && all[j].payload == ds[j - |items|].payload;
      }
    }
  }

  /** MAIN RESULT: the hub keeps lesson order over a resume exactly when nothing newer has
      overtaken a held message: after the flush the chat messages placed are in order if and
      only if those placed before it are, those it places are, and none placed before has a
      greater number than one it places. */
  lemma FlushKeepsOrderIff(s: State)
    ensures InOrder(FinishResumeStep(s).0.placed)
            <==> InOrder(s.placed) && HeldInOrder(Fitting(s)) && NoneAbove(s.placed, Fitting(s))
  {
    hide InOrder, HeldInOrder, NoneAbove, FinishResumeStep, FlushItems;
    FlushPlaces(s);
    OrderAppendIff(s.placed, Fitting(s), FinishResumeStep(s).0.placed);
  }
}
