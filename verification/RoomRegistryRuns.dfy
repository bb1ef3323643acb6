/** Any number of threads registering and unregistering clients, one critical section at a
    time, with the metric updates that happen outside the locks as steps of their own. */
module RoomRegistryRuns {
  import opened RoomRegistry

  /** What an unregister call still has to do. */
  datatype Phase = Found | CountOut(empty: bool) | PruneDue

  datatype Task = Task(client: int, room: nat, phase: Phase)

  /** Who was registered for which lesson, and every removal that took effect. */
  datatype Ledger = Ledger(home: map<int, int>, removals: multiset<int>)

  /** The room-connection label of every lesson with the updates to it not yet made;
      `drift` records those owed when the label was last deleted. */
  datatype Labels = Labels(count: map<int, int>, owedIn: map<int, int>, owedOut: map<int, int>, drift: map<int, int>)

  datatype State = State(hub: Hub, ledger: Ledger, tasks: map<nat, Task>, labels: Labels)

  datatype Step =
    | DoRegister(client: int, lesson: int, blank: nat)
    | DoCountIn(lesson: int)
    | DoLookup(task: nat, client: int)
    | DoRemove(task: nat)
    | DoCountOut(task: nat)
    | DoPrune(task: nat)

  function Init(): State {
    State(Hub(map[], map[]), Ledger(map[], multiset{}), map[], Labels(map[], map[], map[], map[]))
  }

  function At(m: map<int, int>, k: int): int {
    if k in m then m[k] else 0
  }

  function Bump(m: map<int, int>, k: int, d: int): map<int, int> {
    m[k := At(m, k) + d]
  }

  predicate HasTask(s: State, t: nat) {
    t in s.tasks && s.tasks[t].client in s.ledger.home && s.tasks[t].room in s.hub.members
  }

  predicate Enabled(s: State, st: Step) {
    match st
    case DoRegister(c, lesson, blank) => c !in s.ledger.home && blank !in s.hub.members && IndexOk(s.hub)
    case DoCountIn(lesson) => At(s.labels.owedIn, lesson) > 0
    case DoLookup(t, c) => t !in s.tasks && c in s.ledger.home
    case DoRemove(t) => HasTask(s, t) && s.tasks[t].phase.Found?
    case DoCountOut(t) => HasTask(s, t) && s.tasks[t].phase.CountOut?
    case DoPrune(t) => HasTask(s, t) && s.tasks[t].phase.PruneDue?
  }

  function Next(s: State, st: Step): State
    requires Enabled(s, st)
  {
    match st
    case DoRegister(c, lesson, blank) =>
      State(Register(s.hub, c, lesson, blank), s.ledger.(home := s.ledger.home[c := lesson]), s.tasks,
            s.labels.(owedIn := Bump(s.labels.owedIn, lesson, 1)))
    case DoCountIn(lesson) =>
      s.(labels := s.labels.(count := Bump(s.labels.count, lesson, 1), owedIn := Bump(s.labels.owedIn, lesson, -1)))
    case DoLookup(t, c) =>
      var found := Lookup(s.hub, s.ledger.home[c]);
      if found.None? then s else s.(tasks := s.tasks[t := Task(c, found.value, Found)])
    case DoRemove(t) =>
      var (c, r) := (s.tasks[t].client, s.tasks[t].room);
      var (hub, removed, empty) := Remove(s.hub, r, c);
      if removed then
        State(hub, s.ledger.(removals := s.ledger.removals + multiset{c}), s.tasks[t := Task(c, r, CountOut(empty))],
              s.labels.(owedOut := Bump(s.labels.owedOut, s.ledger.home[c], 1)))
      else s.(tasks := s.tasks - {t})
    case DoCountOut(t) =>
      var lesson := s.ledger.home[s.tasks[t].client];
      s.(labels := s.labels.(count := Bump(s.labels.count, lesson, -1), owedOut := Bump(s.labels.owedOut, lesson, -1)),
         tasks := if s.tasks[t].phase.empty then s.tasks[t := s.tasks[t].(phase := PruneDue)] else s.tasks - {t})
    case DoPrune(t) =>
      var lesson := s.ledger.home[s.tasks[t].client];
      var (hub, deleted) := Prune(s.hub, lesson, s.tasks[t].room);
      State(hub, s.ledger, s.tasks - {t}, if deleted then Forget(s.labels, lesson) else s.labels)
  }

  /** Deleting a label resets it to nothing, whatever updates are still owed. */
  function Forget(lb: Labels, lesson: int): Labels {
    lb.(count := lb.count[lesson := 0],
        drift := lb.drift[lesson := At(lb.owedIn, lesson) - At(lb.owedOut, lesson)])
  }

  // ------------------------------------------------------------------ invariant

  /** Registered and not yet removed. */
  predicate IsLive(g: Ledger, c: int) {
    c in g.home && c !in g.removals
  }

  function Live(g: Ledger, lesson: int): set<int> {
    set c | c in g.home && g.home[c] == lesson && c !in g.removals
  }

  predicate Holds(h: Hub, r: nat, c: int) {
    r in h.members && c in h.members[r].clients
  }

  /** c's lesson is indexed with room r. */
  predicate BelongsIn(h: Hub, g: Ledger, r: nat, c: int) {
    IsLive(g, c) && g.home[c] in h.rooms && h.rooms[g.home[c]] == r
  }

  /** Exactly the live clients are in rooms, each in the indexed room of its lesson. */
  ghost predicate MembersOk(h: Hub, g: Ledger) {
    && IndexOk(h)
    && (forall c :: IsLive(g, c) ==> g.home[c] in h.rooms)
    && (forall r, c :: Holds(h, r, c) <==> BelongsIn(h, g, r, c))
  }

  ghost predicate TasksOk(s: State) {
    forall t :: t in s.tasks ==> HasTask(s, t) && s.hub.members[s.tasks[t].room].lesson == s.ledger.home[s.tasks[t].client]
  }

  /** Call t has emptied room r and has yet to prune it. */
  predicate OwesPrune(tasks: map<nat, Task>, t: nat, r: nat) {
    t in tasks && tasks[t].room == r && (tasks[t].phase == CountOut(true) || tasks[t].phase.PruneDue?)
  }

  predicate IndexedEmpty(h: Hub, l: int) {
    l in h.rooms && h.rooms[l] in h.members && h.members[h.rooms[l]].clients == {}
  }

  ghost predicate EmptyRoomsOk(s: State) {
    forall l :: IndexedEmpty(s.hub, l) ==> exists t :: OwesPrune(s.tasks, t, s.hub.rooms[l])
  }

  ghost predicate RemovalsOk(g: Ledger) {
    forall c :: c in g.removals ==> c in g.home && g.removals[c] == 1
  }

  /** The label of a lesson, up to the updates owed now and at its last deletion. */
  ghost predicate LabelOk(lb: Labels, g: Ledger, l: int) {
    At(lb.count, l) == |Live(g, l)| - At(lb.owedIn, l) + At(lb.owedOut, l) + At(lb.drift, l)
  }

  ghost predicate LabelsOk(s: State) {
    forall l :: LabelOk(s.labels, s.ledger, l)
  }

  ghost predicate Inv(s: State) {
    MembersOk(s.hub, s.ledger) && TasksOk(s) && EmptyRoomsOk(s) && RemovalsOk(s.ledger) && LabelsOk(s)
  }

  // ---------------------------------------------------------------- preservation

  lemma RegisterMembers(h: Hub, g: Ledger, c: int, lesson: int, blank: nat)
    requires MembersOk(h, g) && RemovalsOk(g) && c !in g.home && blank !in h.members
    ensures MembersOk(Register(h, c, lesson, blank), g.(home := g.home[c := lesson]))
  {
    var (h2, g2) := (Register(h, c, lesson, blank), g.(home := g.home[c := lesson]));
    forall r: nat, x ensures Holds(h2, r, x) <==> BelongsIn(h2, g2, r, x) {
      assert Holds(h, r, x) <==> BelongsIn(h, g, r, x);
      if x != c { assert IsLive(g2, x) <==> IsLive(g, x); }
    }
    forall x | IsLive(g2, x) ensures g2.home[x] in h2.rooms {
      assert x != c ==> IsLive(g, x);
    }
  }

  lemma RemoveMembers(h: Hub, g: Ledger, r: nat, c: int)
    requires MembersOk(h, g) && Holds(h, r, c)
    ensures MembersOk(Remove(h, r, c).0, g.(removals := g.removals + multiset{c}))
  {
    var (h2, g2) := (Remove(h, r, c).0, g.(removals := g.removals + multiset{c}));
    forall q: nat, x ensures Holds(h2, q, x) <==> BelongsIn(h2, g2, q, x) {
      assert Holds(h, q, x) <==> BelongsIn(h, g, q, x);
      assert BelongsIn(h, g, r, c);
    }
    forall x | IsLive(g2, x) ensures g2.home[x] in h2.rooms {
      assert IsLive(g, x);
    }
  }

  lemma PruneMembers(h: Hub, g: Ledger, lesson: int, r: nat)
    requires MembersOk(h, g) && r in h.members
    ensures MembersOk(Prune(h, lesson, r).0, g)
  {
    var h2 := Prune(h, lesson, r).0;
    if h2 != h {
      forall x | IsLive(g, x) ensures g.home[x] in h2.rooms {
        assert Holds(h, h.rooms[g.home[x]], x) <==> BelongsIn(h, g, h.rooms[g.home[x]], x);
      }
      forall q: nat, x ensures Holds(h2, q, x) <==> BelongsIn(h2, g, q, x) {
        assert Holds(h, q, x) <==> BelongsIn(h, g, q, x);
      }
    }
  }

  lemma MembersStep(s: State, st: Step)
    requires MembersOk(s.hub, s.ledger) && RemovalsOk(s.ledger) && Enabled(s, st)
    ensures MembersOk(Next(s, st).hub, Next(s, st).ledger)
  {
    match st
    case DoRegister(c, lesson, blank) => RegisterMembers(s.hub, s.ledger, c, lesson, blank);
    case DoCountIn(_) =>
    case DoLookup(t, c) =>
    case DoRemove(t) =>
      if Holds(s.hub, s.tasks[t].room, s.tasks[t].client) { RemoveMembers(s.hub, s.ledger, s.tasks[t].room, s.tasks[t].client); }
    case DoCountOut(_) =>
    case DoPrune(t) => PruneMembers(s.hub, s.ledger, s.ledger.home[s.tasks[t].client], s.tasks[t].room);
  }

  /** Rooms and the ledger only grow, and keep what they say. */
  lemma NothingForgotten(s: State, st: Step)
    requires Enabled(s, st)
    ensures var n := Next(s, st);
            && (forall c :: c in s.ledger.home ==> c in n.ledger.home && n.ledger.home[c] == s.ledger.home[c])
            && (forall r :: r in s.hub.members ==> r in n.hub.members && n.hub.members[r].lesson == s.hub.members[r].lesson)
  {
  }

  lemma TasksStep(s: State, st: Step)
    requires IndexOk(s.hub) && TasksOk(s) && Enabled(s, st)
    ensures TasksOk(Next(s, st))
  {
    NothingForgotten(s, st);
    var n := Next(s, st);
    forall t | t in n.tasks
      ensures HasTask(n, t) && n.hub.members[n.tasks[t].room].lesson == n.ledger.home[n.tasks[t].client]
    {
      if t in s.tasks { assert n.tasks[t].client == s.tasks[t].client && n.tasks[t].room == s.tasks[t].room; }
    }
  }

  lemma RemovalsStep(s: State, st: Step)
    requires MembersOk(s.hub, s.ledger) && RemovalsOk(s.ledger) && Enabled(s, st)
    ensures RemovalsOk(Next(s, st).ledger)
  {
    if st.DoRemove? {
      var c, r := s.tasks[st.task].client, s.tasks[st.task].room;
      assert Holds(s.hub, r, c) ==> BelongsIn(s.hub, s.ledger, r, c);
    }
  }

  /** An indexed room that is empty after a step was indexed and empty before it, or the step
      is the removal that emptied it and now owes the pruning. */
  lemma EmptyBefore(s: State, st: Step, l: int)
    requires IndexOk(s.hub) && Enabled(s, st) && IndexedEmpty(Next(s, st).hub, l)
    ensures l in s.hub.rooms && s.hub.rooms[l] == Next(s, st).hub.rooms[l]
    ensures IndexedEmpty(s.hub, l) || (st.DoRemove? && OwesPrune(Next(s, st).tasks, st.task, s.hub.rooms[l]))
  {
    if st.DoRegister? {
      assert st.client in Next(s, st).hub.members[Next(s, st).hub.rooms[st.lesson]].clients;
    }
  }

  /** A pruning that is owed stays owed until it is done. */
  lemma OwedStays(s: State, st: Step, t: nat, r: nat)
    requires OwesPrune(s.tasks, t, r) && Enabled(s, st) && st != DoPrune(t)
    ensures OwesPrune(Next(s, st).tasks, t, r)
  {
  }

  /** Whoever empties an indexed room owes its pruning until it is pruned or filled. */
  lemma EmptyRoomsStep(s: State, st: Step)
    requires IndexOk(s.hub) && TasksOk(s) && EmptyRoomsOk(s) && Enabled(s, st)
    ensures EmptyRoomsOk(Next(s, st))
  {
    var n := Next(s, st);
    forall l | IndexedEmpty(n.hub, l) ensures exists t :: OwesPrune(n.tasks, t, n.hub.rooms[l]) {
      EmptyBefore(s, st, l);
      if IndexedEmpty(s.hub, l) {
        var t :| OwesPrune(s.tasks, t, s.hub.rooms[l]);
        if st != DoPrune(t) { OwedStays(s, st, t, s.hub.rooms[l]); }
      }
    }
  }

  lemma LiveAfterRegister(g: Ledger, c: int, l: int, k: int)
    requires c !in g.home && c !in g.removals
    ensures |Live(g.(home := g.home[c := l]), k)| == |Live(g, k)| + (if k == l then 1 else 0)
  {
    assert Live(g.(home := g.home[c := l]), k) == Live(g, k) + (if k == l then {c} else {});
  }

  lemma LiveAfterRemove(g: Ledger, c: int, k: int)
    requires IsLive(g, c)
    ensures |Live(g.(removals := g.removals + multiset{c}), k)| == |Live(g, k)| - (if k == g.home[c] then 1 else 0)
  {
    assert Live(g.(removals := g.removals + multiset{c}), k) == Live(g, k) - (if k == g.home[c] then {c} else {});
  }

  /** An indexed empty room has no live client of its lesson. */
  lemma EmptyMeansNoneLive(h: Hub, g: Ledger, l: int)
    requires MembersOk(h, g) && IndexedEmpty(h, l)
    ensures Live(g, l) == {}
  {
    forall c ensures c !in Live(g, l) {
      if c in Live(g, l) { assert BelongsIn(h, g, h.rooms[l], c); }
    }
  }

  lemma LabelStep(s: State, st: Step, k: int)
    requires MembersOk(s.hub, s.ledger) && RemovalsOk(s.ledger) && Enabled(s, st) && LabelOk(s.labels, s.ledger, k)
    ensures LabelOk(Next(s, st).labels, Next(s, st).ledger, k)
  {
    match st
    case DoRegister(c, lesson, blank) => LiveAfterRegister(s.ledger, c, lesson, k);
    case DoCountIn(_) =>
    case DoLookup(_, _) =>
    case DoRemove(t) =>
      var c, r := s.tasks[t].client, s.tasks[t].room;
      if Holds(s.hub, r, c) {
        assert BelongsIn(s.hub, s.ledger, r, c);
        LiveAfterRemove(s.ledger, c, k);
      }
    case DoCountOut(_) =>
    case DoPrune(t) =>
      var lesson := s.ledger.home[s.tasks[t].client];
      if IndexedEmpty(s.hub, lesson) { EmptyMeansNoneLive(s.hub, s.ledger, lesson); }
  }

  lemma InvStep(s: State, st: Step)
    requires Inv(s) && Enabled(s, st)
    ensures Inv(Next(s, st))
  {
    MembersStep(s, st);
    TasksStep(s, st);
    EmptyRoomsStep(s, st);
    RemovalsStep(s, st);
    forall l ensures LabelOk(Next(s, st).labels, Next(s, st).ledger, l) {
      LabelStep(s, st, l);
    }
  }

  // ------------------------------------------------------------------------ runs

  ghost predicate IsRun(ss: seq<State>, steps: seq<Step>) {
    && |ss| == |steps| + 1
    && ss[0] == Init()
    && forall i :: 0 <= i < |steps| ==> Enabled(ss[i], steps[i]) && ss[i + 1] == Next(ss[i], steps[i])
  }

  lemma {:induction false} RunInv(ss: seq<State>, steps: seq<Step>)
    requires IsRun(ss, steps)
    ensures Inv(ss[|steps|])
  {
    if steps == [] {
      assert forall l :: Live(Init().ledger, l) == {};
    } else {
      var k := |steps| - 1;
      assert IsRun(ss[..k + 1], steps[..k]);
      RunInv(ss[..k + 1], steps[..k]);
      InvStep(ss[k], steps[k]);
    }
  }

  /** No unregister call under way and no metric update owed. */
  ghost predicate AtRest(s: State) {
    s.tasks == map[] && forall l :: At(s.labels.owedIn, l) == 0 && At(s.labels.owedOut, l) == 0
  }

  lemma NobodyOutside(s: State, r: nat)
    requires MembersOk(s.hub, s.ledger) && r in s.hub.members && r !in s.hub.rooms.Values
    ensures s.hub.members[r].clients == {}
  {
    forall c ensures c in s.hub.members[r].clients ==> r in s.hub.rooms.Values {
      InsideIsIndexed(s, r, c);
    }
  }

  lemma InsideIsIndexed(s: State, r: nat, c: int)
    requires MembersOk(s.hub, s.ledger) && r in s.hub.members
    ensures c in s.hub.members[r].clients ==> r in s.hub.rooms.Values
  {
    if c in s.hub.members[r].clients {
      assert Holds(s.hub, r, c);
      assert s.hub.rooms[s.ledger.home[c]] in s.hub.rooms.Values;
    }
  }

  /** MAIN RESULT for the registry, over every interleaving: every registered, not yet
      removed client is in the indexed room of its lesson and in no other; a room out of the
      index is empty; no client is removed twice; and at rest no indexed room is empty. */
  lemma RegistrySafe(ss: seq<State>, steps: seq<Step>)
    requires IsRun(ss, steps)
    ensures var s := ss[|steps|];
            && (forall c :: IsLive(s.ledger, c) ==>
                  s.ledger.home[c] in s.hub.rooms && Holds(s.hub, s.hub.rooms[s.ledger.home[c]], c))
            && (forall r, c :: Holds(s.hub, r, c) ==> BelongsIn(s.hub, s.ledger, r, c))
            && (forall r :: r in s.hub.members && r !in s.hub.rooms.Values ==> s.hub.members[r].clients == {})
            && (forall c :: s.ledger.removals[c] <= 1)
            && (AtRest(s) ==> forall l :: l in s.hub.rooms ==> !IndexedEmpty(s.hub, l))
  {
    RunInv(ss, steps);
    var s := ss[|steps|];
    forall c | IsLive(s.ledger, c) ensures s.ledger.home[c] in s.hub.rooms && Holds(s.hub, s.hub.rooms[s.ledger.home[c]], c) {
      assert BelongsIn(s.hub, s.ledger, s.hub.rooms[s.ledger.home[c]], c);
    }
    forall r | r in s.hub.members && r !in s.hub.rooms.Values ensures s.hub.members[r].clients == {} {
      NobodyOutside(s, r);
    }
    forall c ensures s.ledger.removals[c] <= 1 {
      if c in s.ledger.removals {}
    }
  }

  /** A room taken out of the index never comes back and nobody is ever added to it. */
  lemma DetachedForEver(s: State, st: Step, r: nat)
    requires Inv(s) && Enabled(s, st) && r in s.hub.members && r !in s.hub.rooms.Values
    ensures r in Next(s, st).hub.members && r !in Next(s, st).hub.rooms.Values
    ensures Next(s, st).hub.members[r].clients == {}
  {
    var n := Next(s, st);
    InvStep(s, st);
    forall l | l in n.hub.rooms ensures n.hub.rooms[l] != r {
      if l in s.hub.rooms { assert s.hub.rooms[l] in s.hub.rooms.Values; }
    }
    NobodyOutside(n, r);
  }

  /** From then on it stays out and empty in every state of the run. */
  lemma {:induction false} DetachedInRun(ss: seq<State>, steps: seq<Step>, i: nat, j: nat, r: nat)
    requires IsRun(ss, steps) && i <= j <= |steps|
    requires r in ss[i].hub.members && r !in ss[i].hub.rooms.Values
    ensures r in ss[j].hub.members && r !in ss[j].hub.rooms.Values && ss[j].hub.members[r].clients == {}
    decreases j
  {
    hide Inv, Enabled, Next;
    if i == j {
      InvAt(ss, steps, j);
      NobodyOutsideInv(ss[j], r);
    } else {
      DetachedInRun(ss, steps, i, j - 1, r);
      InvAt(ss, steps, j - 1);
      DetachedForEver(ss[j - 1], steps[j - 1], r);
    }
  }

  lemma NobodyOutsideInv(s: State, r: nat)
    requires Inv(s) && r in s.hub.members && r !in s.hub.rooms.Values
    ensures s.hub.members[r].clients == {}
  {
    NobodyOutside(s, r);
  }

  lemma InvAt(ss: seq<State>, steps: seq<Step>, j: nat)
    requires IsRun(ss, steps) && j <= |steps|
    ensures Inv(ss[j])
  {
    hide Inv, Enabled, Next;
    assert IsRun(ss[..j + 1], steps[..j]);
    RunInv(ss[..j + 1], steps[..j]);
  }

  /** What ConnectionCount reports is, in every reachable state, the number of clients
      registered for the lesson and not yet removed. */
  lemma ConnectedIsLive(ss: seq<State>, steps: seq<Step>, l: int)
    requires IsRun(ss, steps)
    ensures var s := ss[|steps|]; IndexOk(s.hub) && Connected(s.hub, l) == Live(s.ledger, l)
  {
    RunInv(ss, steps);
    var s := ss[|steps|];
    forall c ensures c in Connected(s.hub, l) <==> c in Live(s.ledger, l) {
      if l in s.hub.rooms { assert Holds(s.hub, s.hub.rooms[l], c) <==> BelongsIn(s.hub, s.ledger, s.hub.rooms[l], c); }
    }
  }

  /** The per-lesson label is not safe: at rest it is the number of clients in the lesson's
      room if and only if, when it was last deleted, as many increments as decrements were
      still owed. */
  lemma LabelExactIffBalancedDelete(ss: seq<State>, steps: seq<Step>, l: int)
    requires IsRun(ss, steps) && AtRest(ss[|steps|])
    ensures var s := ss[|steps|];
            At(s.labels.count, l) == |Live(s.ledger, l)| <==> At(s.labels.drift, l) == 0
  {
    RunInv(ss, steps);
    assert LabelOk(ss[|steps|].labels, ss[|steps|].ledger, l);
  }

  lemma Extend(ss: seq<State>, steps: seq<Step>, st: Step) returns (more: seq<State>)
    requires IsRun(ss, steps) && Enabled(ss[|steps|], st)
    ensures IsRun(more, steps + [st]) && more[|steps| + 1] == Next(ss[|steps|], st)
  {
    more := ss + [Next(ss[|steps|], st)];
  }

  /** It does drift: a client evicted before its own register call counted it in leaves a
      label of 1 for a lesson without a room. */
  lemma LabelDrifts() returns (ss: seq<State>, steps: seq<Step>)
    ensures IsRun(ss, steps) && AtRest(ss[|steps|])
    ensures At(ss[|steps|].labels.count, 7) == 1 && Live(ss[|steps|].ledger, 7) == {}
  {
    ss, steps := EvictedEarly();
    ss := Extend(ss, steps, DoCountOut(0));
    steps := steps + [DoCountOut(0)];
    assert ss[|steps|].tasks == map[0 := Task(1, 0, PruneDue)];
    ss := Extend(ss, steps, DoPrune(0));
    steps := steps + [DoPrune(0)];
    assert ss[|steps|].tasks == map[];
    ss := Extend(ss, steps, DoCountIn(7));
    steps := steps + [DoCountIn(7)];
  }

  lemma EvictedEarly() returns (ss: seq<State>, steps: seq<Step>)
    ensures IsRun(ss, steps)
    ensures ss[|steps|] == State(Hub(map[7 := 0], map[0 := RoomState(7, {})]), Ledger(map[1 := 7], multiset{1}),
              map[0 := Task(1, 0, CountOut(true))], Labels(map[], map[7 := 1], map[7 := 1], map[]))
  {
    ss, steps := [Init()], [];
    ss := Extend(ss, steps, DoRegister(1, 7, 0));
    steps := steps + [DoRegister(1, 7, 0)];
    assert ss[|steps|].hub == Hub(map[7 := 0], map[0 := RoomState(7, {1})]);
    ss := Extend(ss, steps, DoLookup(0, 1));
    steps := steps + [DoLookup(0, 1)];
    assert ss[|steps|].tasks == map[0 := Task(1, 0, Found)];
    ss := Extend(ss, steps, DoRemove(0));
    steps := steps + [DoRemove(0)];
    assert {1} - {1} == {};
    assert ss[|steps|].hub.members == map[0 := RoomState(7, {})];
  }
}
