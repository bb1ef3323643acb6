/** All clients of the hub together with the queue-depth gauge they share. */
module ChatFleet {
  import opened ChatClient
  import opened ChatClientRuns

  datatype Fleet = Fleet(clients: seq<Machine>, gauge: int)

  datatype Step = Join(cfg: Config, resuming: bool) | Act(client: nat, event: Event)

  predicate CanStep(f: Fleet, st: Step) {
    st.Act? ==> st.client < |f.clients| && Enabled(f.clients[st.client], st.event)
  }

  /** Every place that moves the gauge moves it by the change of that client's queue, except
      the exiting writer, which takes out everything still queued. */
  function Move(f: Fleet, st: Step): Fleet
    requires CanStep(f, st)
  {
    match st
    case Join(cfg, resuming) => f.(clients := f.clients + [Start(cfg, resuming)])
    case Act(i, e) =>
      var m := f.clients[i];
      var n := Next(m, e).0;
      Fleet(f.clients[i := n], f.gauge + Change(m, e))
  }

  function Change(m: Machine, e: Event): int
    requires Enabled(m, e)
  {
    if e.WriterExit? then -|m.s.send| else |Next(m, e).0.s.send| - |m.s.send|
  }

  /** What a client contributes: its queue, until its writer has returned. */
  function Queued(m: Machine): nat {
    if m.s.writerExited then 0 else |m.s.send|
  }

  function TotalQueued(ms: seq<Machine>): nat {
    if ms == [] then 0 else TotalQueued(ms[..|ms| - 1]) + Queued(ms[|ms| - 1])
  }

  ghost predicate FleetInv(f: Fleet) {
    && f.gauge == TotalQueued(f.clients)
    && forall i :: 0 <= i < |f.clients| ==> Inv(f.clients[i])
  }

  lemma {:induction false} TotalUpdate(ms: seq<Machine>, i: nat, m: Machine)
    requires i < |ms|
    ensures TotalQueued(ms[i := m]) == TotalQueued(ms) - Queued(ms[i]) + Queued(m)
  {
    var k := |ms| - 1;
    if i == k {
      assert ms[i := m][..k] == ms[..k];
    } else {
      TotalUpdate(ms[..k], i, m);
      assert ms[i := m][..k] == ms[..k][i := m];
    }
  }

  /** A client whose writer has returned is closed, so its queue never changes again. */
  lemma ExitedQueueIsFixed(m: Machine, e: Event)
    requires Inv(m) && Enabled(m, e) && m.s.writerExited
    ensures Next(m, e).0.s.send == m.s.send && Next(m, e).0.s.writerExited
  {
    ClosedAddsNothing(m, e);
  }

  lemma OnlyExitExits(m: Machine, e: Event)
    requires Enabled(m, e) && !e.WriterExit?
    ensures Next(m, e).0.s.writerExited == m.s.writerExited
  {
  }

  lemma ChangeIsQueued(m: Machine, e: Event)
    requires Inv(m) && Enabled(m, e)
    ensures Queued(Next(m, e).0) == Queued(m) + Change(m, e)
  {
    if e.WriterExit? {
      hide Inv;
    } else {
      OnlyExitExits(m, e);
      if m.s.writerExited { ExitedQueueIsFixed(m, e); }
      hide Inv, Next, Enabled;
    }
  }

  lemma JoinStep(f: Fleet, cfg: Config, resuming: bool)
    requires FleetInv(f)
    ensures FleetInv(Move(f, Join(cfg, resuming)))
  {
    hide Inv, Start, Queued, TotalQueued;
    FreshInv(cfg, resuming);
    TotalSnoc(f.clients, Start(cfg, resuming));
  }

  lemma TotalSnoc(ms: seq<Machine>, m: Machine)
    ensures TotalQueued(ms + [m]) == TotalQueued(ms) + Queued(m)
  {
    assert (ms + [m])[..|ms|] == ms;
  }

  lemma FreshInv(cfg: Config, resuming: bool)
    ensures Inv(Start(cfg, resuming)) && Queued(Start(cfg, resuming)) == 0
  {
  }

  lemma ActStep(f: Fleet, i: nat, e: Event)
    requires FleetInv(f) && CanStep(f, Act(i, e))
    ensures FleetInv(Move(f, Act(i, e)))
  {
    hide Inv, Next, Enabled, Queued, Change, TotalQueued;
    var m := f.clients[i];
    InvStep(m, e);
    ChangeIsQueued(m, e);
    TotalUpdate(f.clients, i, Next(m, e).0);
  }

  lemma FleetStep(f: Fleet, st: Step)
    requires FleetInv(f) && CanStep(f, st)
    ensures FleetInv(Move(f, st))
  {
    hide FleetInv, Move;
    match st
    case Join(cfg, resuming) => JoinStep(f, cfg, resuming);
    case Act(i, e) => ActStep(f, i, e);
  }

  ghost predicate IsFleetRun(fs: seq<Fleet>, steps: seq<Step>) {
    && |fs| == |steps| + 1
    && fs[0] == Fleet([], 0)
    && forall i :: 0 <= i < |steps| ==> CanStep(fs[i], steps[i]) && fs[i + 1] == Move(fs[i], steps[i])
  }

  /** MAIN RESULT: in every interleaving of all clients, the gauge is the total number of
      payloads queued at clients whose writer has not returned. */
  lemma {:induction false} GaugeIsQueued(fs: seq<Fleet>, steps: seq<Step>)
    requires IsFleetRun(fs, steps)
    ensures FleetInv(fs[|steps|])
    ensures fs[|steps|].gauge == TotalQueued(fs[|steps|].clients)
  {
    if steps != [] {
      var k := |steps| - 1;
      assert IsFleetRun(fs[..k + 1], steps[..k]);
      GaugeIsQueued(fs[..k + 1], steps[..k]);
      FleetStep(fs[k], steps[k]);
    }
  }
}
