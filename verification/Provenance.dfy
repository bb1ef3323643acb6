/** Where everything on the send queue comes from: a stored message, replayed from after the
    anchor or handed over by a broadcast that found this client. */
module Provenance {
  import opened Wrappers
  import opened ChatMessages
  import opened Delivery
  import K = ChatClient
  import C = ChatClientRuns
  import R = RoomRegistryRuns

  /** The payload is a logged message under its own id. */
  predicate FromLog(log: set<Entry>, id: string, payload: Message) {
    id == payload.messageId && exists x :: x in log && x.msg == payload
  }

  predicate ItemOk(log: set<Entry>, item: K.Item) {
    if item.origin.Control? then item.messageId == "" else FromLog(log, item.messageId, item.payload)
  }

  predicate HeldOk(log: set<Entry>, d: K.Delivery) {
    FromLog(log, d.messageId, d.payload)
  }

  /** Nothing is sent or held back that was not stored. */
  ghost predicate Sourced(s: State) {
    && (forall item :: item in s.client.s.placed ==> ItemOk(s.log, item))
    && (forall d :: d in s.client.s.pendingLive ==> HeldOk(s.log, d))
  }

  /** What one client event can add to the two places. */
  lemma EventAdds(m: C.Machine, e: C.Event)
    requires C.Enabled(m, e)
    ensures var n := C.Next(m, e).0;
            && (n.s.placed == m.s.placed || exists item :: n.s.placed == m.s.placed + [item] && Adds(m, e, item))
            && (forall d :: d in n.s.pendingLive ==> d in m.s.pendingLive || (e.Chat? && d.messageId == e.id && d.payload == e.payload))
  {
    match e
    case Chat(id, payload, lessonSeq) =>
      C.RememberKeeps(m.s.(pendingLive := m.s.pendingLive + [K.Delivery(id, lessonSeq, payload)]), id);
      SendAdds(m, e, K.Item(K.Live, id, payload));
    case Replay(id, payload) => SendAdds(m, e, K.Item(K.Replayed, id, payload));
    case Send(payload) => assert Adds(m, e, K.Item(K.Control, "", payload));
    case FlushNext =>
      var d := m.s.pendingLive[m.flush.next];
      SendAdds(m, e, K.Item(K.Flushed, d.messageId, d.payload));
    case _ =>
  }

  predicate Adds(m: C.Machine, e: C.Event, item: K.Item) {
    match e
    case Chat(id, payload, _) => item == K.Item(K.Live, id, payload)
    case Replay(id, payload) => item == K.Item(K.Replayed, id, payload)
    case Send(payload) => item == K.Item(K.Control, "", payload)
    case FlushNext =>
      exists d :: d in m.s.pendingLive && item == K.Item(K.Flushed, d.messageId, d.payload)
    case _ => false
  }

  lemma SendAdds(m: C.Machine, e: C.Event, item: K.Item)
    requires Adds(m, e, item)
    ensures var t := K.SendAndRemember(m.s, item).0;
            && t.pendingLive == m.s.pendingLive
            && (t.placed == m.s.placed || (t.placed == m.s.placed + [item] && Adds(m, e, item)))
  {
    C.RememberKeeps(K.EnqueueStep(m.s, item).0, item.messageId);
  }

  /** The message events of the protocol carry logged messages. */
  lemma EventsCarryLogged(s: State, st: Step)
    requires Inv(s) && Enabled(s, st) && EventOf(s, st).Some?
    ensures var e := EventOf(s, st).value;
            e.Chat? || e.Replay? ==> FromLog(s.log, e.id, e.payload)
  {
    match st
    case Deliver(b) => assert s.casts[b].entry in s.log;
    case Offer => assert s.phase.page[s.phase.next] in s.log;
    case _ =>
  }

  lemma SourcedStep(s: State, st: Step)
    requires Inv(s) && Sourced(s) && Enabled(s, st)
    ensures Sourced(Next(s, st))
  {
    hide Inv, Next, Enabled, C.Next, C.Enabled;
    var n := Next(s, st);
    ClientPart(s, st);
    LogGrows(s, st);
    if EventOf(s, st).Some? {
      var e := EventOf(s, st).value;
      EventsCarryLogged(s, st);
      EventAdds(s.client, e);
      forall item | item in n.client.s.placed ensures ItemOk(n.log, item) {
        if item !in s.client.s.placed {
          assert Adds(s.client, e, item);
          if e.FlushNext? {
            var d :| d in s.client.s.pendingLive && item == K.Item(K.Flushed, d.messageId, d.payload);
            assert HeldOk(s.log, d);
          }
        }
      }
    }
  }

  lemma {:induction false} RunSourced(ss: seq<State>, steps: seq<Step>)
    requires IsRun(ss, steps)
    ensures Sourced(ss[|steps|])
  {
    if steps != [] {
      var k := |steps| - 1;
      assert IsRun(ss[..k + 1], steps[..k]);
      RunSourced(ss[..k + 1], steps[..k]);
      RunInv(ss[..k + 1], steps[..k]);
      SourcedStep(ss[k], steps[k]);
    }
  }

  // -------------------------------------------------- what the replay can have placed

  /** The replay reads on from the anchor. */
  ghost predicate PageOk(s: State) {
    match s.phase
    case Paging(cursor, _) => s.anchor <= cursor
    case Offering(cursor, page, _, _, _) => s.anchor <= cursor && forall x :: x in page ==> x in s.log && cursor < x.key
    case _ => true
  }

  predicate AfterAnchor(log: set<Entry>, anchor: int, m: Message) {
    exists x :: x in log && x.msg == m && anchor < x.key
  }

  ghost predicate ReplayedOk(s: State) {
    forall item :: item in s.client.s.placed && item.origin.Replayed? ==> AfterAnchor(s.log, s.anchor, item.payload)
  }

  lemma PageStep(s: State, st: Step)
    requires PageOk(s) && Enabled(s, st)
    ensures PageOk(Next(s, st)) && Next(s, st).anchor == s.anchor && s.log <= Next(s, st).log
  {
    hide C.Next, C.Enabled, R.Next, R.Enabled;
  }

  lemma ReplayedStep(s: State, st: Step)
    requires PageOk(s) && ReplayedOk(s) && Enabled(s, st)
    ensures ReplayedOk(Next(s, st))
  {
    var n := Next(s, st);
    PageStep(s, st);
    ClientPart(s, st);
    if EventOf(s, st).Some? { EventAdds(s.client, EventOf(s, st).value); }
    hide Next, Enabled, C.Next, C.Enabled, AfterAnchor;
    forall item | item in n.client.s.placed && item.origin.Replayed? ensures AfterAnchor(n.log, n.anchor, item.payload) {
      if item in s.client.s.placed {
        AfterAnchorGrows(s.log, n.log, s.anchor, item.payload);
      } else {
        OnlyOffersReplay(s, st, item);
        AfterAnchorGrows(s.log, n.log, s.anchor, item.payload);
      }
    }
  }

  lemma AfterAnchorGrows(a: set<Entry>, b: set<Entry>, anchor: int, m: Message)
    requires a <= b
    ensures AfterAnchor(a, anchor, m) ==> AfterAnchor(b, anchor, m)
  {
  }

  lemma OnlyOffersReplay(s: State, st: Step, item: K.Item)
    requires PageOk(s) && Enabled(s, st) && EventOf(s, st).Some? && item.origin.Replayed?
    requires Adds(s.client, EventOf(s, st).value, item)
    ensures AfterAnchor(s.log, s.anchor, item.payload)
  {
    hide C.Next, C.Enabled;
    assert st.Offer?;
    assert s.phase.page[s.phase.next] in s.phase.page;
  }

  lemma {:induction false} RunReplayed(ss: seq<State>, steps: seq<Step>)
    requires IsRun(ss, steps)
    ensures PageOk(ss[|steps|]) && ReplayedOk(ss[|steps|])
  {
    if steps != [] {
      var k := |steps| - 1;
      assert IsRun(ss[..k + 1], steps[..k]);
      RunReplayed(ss[..k + 1], steps[..k]);
      PageStep(ss[k], steps[k]);
      ReplayedStep(ss[k], steps[k]);
    }
  }

  // ------------------------------------------------- what the broadcasts can have placed

  /** A broadcast of x, whose snapshot found this client in the room, hands x over and is not
      refused: with this step it is over. */
  ghost predicate HandsOver(s: State, st: Step, x: Entry) {
    && st.Deliver? && Enabled(s, st) && s.casts[st.cast].entry == x
    && st.cast !in Next(s, st).casts
  }

  ghost predicate HandedOver(ss: seq<State>, steps: seq<Step>, x: Entry) {
    exists i :: 0 <= i < |steps| && i < |ss| && HandsOver(ss[i], steps[i], x)
  }

  /** What reaches this client in any case: what ranks after its anchor, and what was handed over. */
  ghost predicate Reached(ss: seq<State>, steps: seq<Step>, anchor: int, x: Entry) {
    x.key > anchor || HandedOver(ss, steps, x)
  }

  ghost predicate Credited(ss: seq<State>, steps: seq<Step>, log: set<Entry>, id: string, payload: Message) {
    exists x :: x in log && HandedOver(ss, steps, x) && x.msg == payload && id == payload.messageId
  }

  /** Whatever was sent or held back live was handed over by a broadcast. */
  ghost predicate LiveOk(ss: seq<State>, steps: seq<Step>, s: State) {
    && (forall item :: item in s.client.s.placed && (item.origin.Live? || item.origin.Flushed?) ==>
          Credited(ss, steps, s.log, item.messageId, item.payload))
    && (forall d :: d in s.client.s.pendingLive ==> Credited(ss, steps, s.log, d.messageId, d.payload))
  }

  lemma HandedOverGrows(ss: seq<State>, steps: seq<Step>, k: nat, x: Entry)
    requires |ss| == |steps| + 1 && k < |steps| && HandedOver(ss[..k + 1], steps[..k], x)
    ensures HandedOver(ss, steps, x)
  {
    var i :| 0 <= i < k && HandsOver(ss[..k + 1][i], steps[..k][i], x);
    assert HandsOver(ss[i], steps[i], x);
  }

  lemma CreditedGrows(ss: seq<State>, steps: seq<Step>, k: nat, log: set<Entry>, more: set<Entry>, id: string, payload: Message)
    requires |ss| == |steps| + 1 && k < |steps| && log <= more && Credited(ss[..k + 1], steps[..k], log, id, payload)
    ensures Credited(ss, steps, more, id, payload)
  {
    var x :| x in log && HandedOver(ss[..k + 1], steps[..k], x) && x.msg == payload && id == payload.messageId;
    HandedOverGrows(ss, steps, k, x);
  }

  lemma RefusedAddsNothing(m: C.Machine, e: C.Event)
    requires C.Enabled(m, e) && e.Chat? && !C.Next(m, e).1
    ensures C.Next(m, e).0.s.placed == m.s.placed && C.Next(m, e).0.s.pendingLive == m.s.pendingLive
  {
  }

  /** A hand-over that adds anything is not refused. */
  lemma DeliverHandsOver(s: State, st: Step)
    requires Inv(s) && Enabled(s, st) && st.Deliver?
    ensures var n := Next(s, st);
            && s.casts[st.cast].entry in s.log
            && (HandsOver(s, st, s.casts[st.cast].entry)
                || (n.client.s.placed == s.client.s.placed && n.client.s.pendingLive == s.client.s.pendingLive))
  {
    hide C.Inv, R.Inv, SessionOk, LateOk, ReplayOk;
    var e := ChatOf(s.casts[st.cast].entry);
    if !C.Next(s.client, e).1 { RefusedAddsNothing(s.client, e); }
    hide C.Next;
  }

  /** Only a hand-over adds live or held-back messages; a flush moves what is held back. */
  lemma LiveAdds(s: State, st: Step)
    requires Inv(s) && Enabled(s, st)
    ensures var n := Next(s, st);
            && (forall item :: item in n.client.s.placed && item !in s.client.s.placed && (item.origin.Live? || item.origin.Flushed?) ==>
                  FromHere(s, st, item.messageId, item.payload))
            && (forall d :: d in n.client.s.pendingLive && d !in s.client.s.pendingLive ==> FromHere(s, st, d.messageId, d.payload))
  {
    hide Inv, C.Next, C.Enabled, R.Next, R.Enabled;
    ClientPart(s, st);
    if EventOf(s, st).Some? { EventAdds(s.client, EventOf(s, st).value); }
    if st.Deliver? { DeliverHandsOver(s, st); }
  }

  ghost predicate FromHere(s: State, st: Step, id: string, payload: Message) {
    || (exists x :: x in s.log && HandsOver(s, st, x) && x.msg == payload && id == payload.messageId)
    || (exists d :: d in s.client.s.pendingLive && d.messageId == id && d.payload == payload)
  }

  lemma FromHereCredited(ss: seq<State>, steps: seq<Step>, k: nat, id: string, payload: Message)
    requires |ss| == |steps| + 1 && k == |steps| - 1 && ss[k].log <= ss[k + 1].log
    requires LiveOk(ss[..k + 1], steps[..k], ss[k]) && FromHere(ss[k], steps[k], id, payload)
    ensures Credited(ss, steps, ss[k + 1].log, id, payload)
  {
    hide HandsOver;
    if x :| x in ss[k].log && HandsOver(ss[k], steps[k], x) && x.msg == payload && id == payload.messageId {
      assert HandedOver(ss, steps, x);
    } else {
      var d :| d in ss[k].client.s.pendingLive && d.messageId == id && d.payload == payload;
      CreditedGrows(ss, steps, k, ss[k].log, ss[k + 1].log, id, payload);
    }
  }

  /** Over every run, what was sent live had been handed over by a broadcast. */
  lemma {:induction false} RunLive(ss: seq<State>, steps: seq<Step>)
    requires IsRun(ss, steps)
    ensures LiveOk(ss, steps, ss[|steps|])
  {
    if steps != [] {
      var k := |steps| - 1;
      assert IsRun(ss[..k + 1], steps[..k]);
      RunLive(ss[..k + 1], steps[..k]);
      RunInv(ss[..k + 1], steps[..k]);
      LiveOneMore(ss, steps, k);
    }
  }

  lemma LiveOneMore(ss: seq<State>, steps: seq<Step>, k: nat)
    requires |ss| == |steps| + 1 && k == |steps| - 1
    requires Inv(ss[k]) && Enabled(ss[k], steps[k]) && ss[k + 1] == Next(ss[k], steps[k])
    requires LiveOk(ss[..k + 1], steps[..k], ss[k])
    ensures LiveOk(ss, steps, ss[k + 1])
  {
    var s, n := ss[k], ss[k + 1];
    LogGrows(s, steps[k]);
    LiveAdds(s, steps[k]);
    hide Inv, Enabled, Next, Credited, FromHere;
    forall item | item in n.client.s.placed && (item.origin.Live? || item.origin.Flushed?)
      ensures Credited(ss, steps, n.log, item.messageId, item.payload)
    {
      if item in s.client.s.placed {
        CreditedGrows(ss, steps, k, s.log, n.log, item.messageId, item.payload);
      } else {
        FromHereCredited(ss, steps, k, item.messageId, item.payload);
      }
    }
    forall d | d in n.client.s.pendingLive ensures Credited(ss, steps, n.log, d.messageId, d.payload) {
      if d in s.client.s.pendingLive {
        CreditedGrows(ss, steps, k, s.log, n.log, d.messageId, d.payload);
      } else {
        FromHereCredited(ss, steps, k, d.messageId, d.payload);
      }
    }
  }

  lemma LogGrows(s: State, st: Step)
    requires Enabled(s, st)
    ensures s.log <= Next(s, st).log
  {
    hide C.Next, C.Enabled, R.Next, R.Enabled;
  }

  /** Over every run, what was handed over counts as delivered. */
  lemma {:induction false} HandedOverIsReported(ss: seq<State>, steps: seq<Step>, x: Entry)
    requires IsRun(ss, steps) && HandedOver(ss, steps, x)
    ensures Reported(ss[|steps|], x)
  {
    hide Next, Enabled, HandsOver, LogOk, SessionOk, LateOk, ReplayOk, C.Inv, R.Inv;
    var k := |steps| - 1;
    var i :| 0 <= i < |steps| && i < |ss| && HandsOver(ss[i], steps[i], x);
    assert IsRun(ss[..k + 1], steps[..k]);
    RunInv(ss[..k + 1], steps[..k]);
    assert Inv(ss[k]) && Enabled(ss[k], steps[k]) && ss[k + 1] == Next(ss[k], steps[k]);
    if i == k {
      HandsOverReports(ss[k], steps[k], x);
    } else {
      assert HandsOver(ss[..k + 1][i], steps[..k][i], x);
      HandedOverIsReported(ss[..k + 1], steps[..k], x);
      ClientGrows(ss[k], steps[k]);
    }
  }

  lemma HandsOverReports(s: State, st: Step, x: Entry)
    requires Inv(s) && HandsOver(s, st, x)
    ensures Reported(Next(s, st), x)
  {
    hide C.Inv, R.Inv, SessionOk, LateOk, ReplayOk;
    assert x in s.log && x.msg.messageId != "";
    ClientStep(s.client, ChatOf(x));
    hide C.Next, C.Enabled;
  }

  /** With step j the broadcast b of x looked for its clients and found this one in the room. */
  ghost predicate Finds(s: State, st: Step, b: nat, x: Entry) {
    && st == Snapshot(b) && Enabled(s, st) && s.casts[b].entry == x
    && s.me in s.reg.hub.members[s.casts[b].stage.room].clients
  }

  ghost predicate Found(ss: seq<State>, steps: seq<Step>, b: nat, x: Entry) {
    exists j :: 0 <= j < |steps| && j < |ss| && Finds(ss[j], steps[j], b, x)
  }

  /** Every broadcast that is about to hand over, or was refused, had found this client. */
  ghost predicate FoundOk(ss: seq<State>, steps: seq<Step>, s: State) {
    forall b :: b in s.casts && (s.casts[b].stage == Sending(true) || s.casts[b].stage.Evicting?) ==>
      Found(ss, steps, b, s.casts[b].entry)
  }

  lemma FoundGrows(ss: seq<State>, steps: seq<Step>, k: nat, b: nat, x: Entry)
    requires |ss| == |steps| + 1 && k < |steps| && Found(ss[..k + 1], steps[..k], b, x)
    ensures Found(ss, steps, b, x)
  {
    var j :| 0 <= j < k && Finds(ss[..k + 1][j], steps[..k][j], b, x);
    assert Finds(ss[j], steps[j], b, x);
  }

  /** What a step does to the broadcasts that hand over. */
  lemma SendingStep(s: State, st: Step, b: nat)
    requires Enabled(s, st) && b in Next(s, st).casts
    requires Next(s, st).casts[b].stage == Sending(true) || Next(s, st).casts[b].stage.Evicting?
    ensures var x := Next(s, st).casts[b].entry;
            || Finds(s, st, b, x)
            || (b in s.casts && s.casts[b].entry == x && (s.casts[b].stage == Sending(true) || s.casts[b].stage.Evicting?))
  {
    hide C.Next, C.Enabled, R.Next, R.Enabled;
  }

  lemma {:induction false} RunFound(ss: seq<State>, steps: seq<Step>)
    requires IsRun(ss, steps)
    ensures FoundOk(ss, steps, ss[|steps|])
  {
    if steps != [] {
      var k := |steps| - 1;
      assert IsRun(ss[..k + 1], steps[..k]);
      RunFound(ss[..k + 1], steps[..k]);
      var s, n := ss[k], ss[k + 1];
      assert Enabled(s, steps[k]) && n == Next(s, steps[k]);
      hide Enabled, Next, Finds;
      forall b | b in n.casts && (n.casts[b].stage == Sending(true) || n.casts[b].stage.Evicting?)
        ensures Found(ss, steps, b, n.casts[b].entry)
      {
        SendingStep(s, steps[k], b);
        if !Finds(s, steps[k], b, n.casts[b].entry) { FoundGrows(ss, steps, k, b, n.casts[b].entry); }
      }
    }
  }

  /** Whatever was handed over to this client, the broadcast had found it in the room of the
      lesson before. */
  lemma HandedOverWasFound(ss: seq<State>, steps: seq<Step>, i: nat, x: Entry)
    requires IsRun(ss, steps) && i < |steps| && HandsOver(ss[i], steps[i], x)
    ensures exists j :: 0 <= j < i && Finds(ss[j], steps[j], steps[i].cast, x)
  {
    assert IsRun(ss[..i + 1], steps[..i]);
    RunFound(ss[..i + 1], steps[..i]);
    hide IsRun, Finds, Next;
    assert Found(ss[..i + 1], steps[..i], steps[i].cast, x);
    var j :| 0 <= j < i && Finds(ss[..i + 1][j], steps[..i][j], steps[i].cast, x);
    assert ss[..i + 1][j] == ss[j] && steps[..i][j] == steps[j];
  }
}
