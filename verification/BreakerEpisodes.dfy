/** Half-open episodes: permits that outlive the state they were granted in, and runs that
    reach the limits. */
module BreakerEpisodes {
  import opened CircuitBreaker
  import opened BreakerRuns

  // ------------------------------------------------------------------ building runs

  lemma Then(c: Config, ss: seq<Sys>, es: seq<Event>, e: Event) returns (more: seq<Sys>, longer: seq<Event>)
    requires IsRun(c, ss, es) && Enabled(ss[|es|], e)
    ensures longer == es + [e] && IsRun(c, more, longer) && |more| == |longer| + 1
    ensures more[|longer|] == Next(c, ss[|es|], e)
  {
    more, longer := ss + [Next(c, ss[|es|], e)], es + [e];
  }

  ghost predicate Path(c: Config, s: Sys, es: seq<Event>, t: Sys)
    decreases |es|
  {
    if es == [] then s == t else Enabled(s, es[0]) && Path(c, Next(c, s, es[0]), es[1..], t)
  }

  lemma {:induction false} RunOn(c: Config, ss: seq<Sys>, es: seq<Event>, fs: seq<Event>, t: Sys)
    returns (more: seq<Sys>, longer: seq<Event>)
    requires IsRun(c, ss, es) && |ss| == |es| + 1 && Path(c, ss[|es|], fs, t)
    ensures longer == es + fs && IsRun(c, more, longer) && |more| == |longer| + 1 && more[|longer|] == t
    decreases |fs|
  {
    hide IsRun, Enabled, Next;
    more, longer := ss, es;
    if fs == [] {
      assert es + fs == es;
    } else {
      more, longer := Then(c, ss, es, fs[0]);
      more, longer := RunOn(c, more, longer, fs[1..], t);
      assert (es + [fs[0]]) + fs[1..] == es + fs;
    }
  }

  // -------------------------------------------------------------- stale permits

  /** In an episode begun with no permit outstanding every result counted is its own. */
  ghost predicate OwnOk(s: Sys) {
    s.b.mode.HalfOpen? ==>
      && (forall id :: id in s.outstanding && s.outstanding[id] != s.episode ==> id in s.strangers)
      && (s.strangers == {} ==> forall i :: 0 <= i < |s.counted| ==> s.counted[i].0 == s.episode)
  }

  lemma OwnStep(c: Config, s: Sys, e: Event)
    requires OwnOk(s) && Enabled(s, e)
    ensures OwnOk(Next(c, s, e))
    ensures s.b.mode.HalfOpen? && s.strangers == {} && e.Finish? ==> s.outstanding[e.id] == s.episode
  {
  }

  lemma {:induction false} ProbesAreOwn(c: Config, ss: seq<Sys>, es: seq<Event>)
    requires IsRun(c, ss, es)
    ensures OwnOk(ss[|es|])
    ensures ss[|es|].b.mode.HalfOpen? && ss[|es|].strangers == {} ==>
      forall id :: id in ss[|es|].outstanding ==> ss[|es|].outstanding[id] == ss[|es|].episode
  {
    if es != [] {
      var k := |es| - 1;
      assert IsRun(c, ss[..k + 1], es[..k]);
      ProbesAreOwn(c, ss[..k + 1], es[..k]);
      OwnStep(c, ss[k], es[k]);
    }
  }

  /** These events happen within one half-open episode; the last one may end it. */
  ghost predicate InEpisode(c: Config, s: Sys, fs: seq<Event>, t: Sys)
    decreases |fs|
  {
    if fs == [] then s == t
    else s.b.mode.HalfOpen? && Enabled(s, fs[0]) && InEpisode(c, Next(c, s, fs[0]), fs[1..], t)
  }

  /** The episode has counted a result of a permit granted before it. */
  ghost predicate CountedStranger(t: Sys) {
    exists i :: 0 <= i < |t.counted| && t.counted[i].0 != t.episode
  }

  lemma {:induction false} OwnAlong(c: Config, s: Sys, fs: seq<Event>, t: Sys)
    requires s.b.mode.HalfOpen? ==> OwnOk(s) && s.strangers == {}
    requires !CountedStranger(s) && InEpisode(c, s, fs, t)
    ensures !CountedStranger(t)
    decreases |fs|
  {
    if fs != [] {
      OwnStep(c, s, fs[0]);
      OwnAlong(c, Next(c, s, fs[0]), fs[1..], t);
    }
  }

  /** Permits carry no generation. In every run, the half-open episode an Acquire begins can
      come to count the result of an earlier permit if and only if some permit was still
      outstanding when it began. */
  lemma StrangerCountedIff(c: Config, ss: seq<Sys>, es: seq<Event>, e: Event)
    requires IsRun(c, ss, es) && Enabled(ss[|es|], e)
    requires ss[|es|].b.mode.Open? && Next(c, ss[|es|], e).b.mode.HalfOpen?
    ensures (exists fs, t :: InEpisode(c, Next(c, ss[|es|], e), fs, t) && CountedStranger(t))
            <==> ss[|es|].outstanding != map[]
  {
    var s, n := ss[|es|], Next(c, ss[|es|], e);
    if s.outstanding == map[] {
      ProbesAreOwn(c, ss, es);
      OwnStep(c, s, e);
      forall fs, t | InEpisode(c, n, fs, t) ensures !CountedStranger(t) {
        OwnAlong(c, n, fs, t);
      }
    } else {
      RunOk(c, ss, es);
      var id :| id in s.outstanding;
      StaleIsCounted(c, n, id);
    }
  }

  lemma StaleIsCounted(c: Config, n: Sys, id: nat)
    requires n.b.mode.HalfOpen? && n.counted == [] && id in n.outstanding && n.outstanding[id] != n.episode
    ensures exists fs, t :: InEpisode(c, n, fs, t) && CountedStranger(t)
  {
    var e := Finish(id, n.clock, true);
    var t := Next(c, n, e);
    assert t.counted[0].0 != t.episode;
    assert [e][1..] == [];
    assert InEpisode(c, t, [], t);
    assert InEpisode(c, n, [e], t);
  }

  /** A stale success closes the breaker while the only probe is still out. */
  lemma ClosedByStranger() returns (c: Config, ss: seq<Sys>, es: seq<Event>)
    ensures IsRun(c, ss, es) && |ss| == |es| + 1
    ensures var s := ss[|es|];
            s.b.mode.Closed? && s.counted == [(0, true)] && s.episode == 1 && s.outstanding == map[2 := 1]
  {
    hide IsRun;
    c := RawConfig("d", 10, 1, 1.0, 1, 1);
    ss, es := TwoPermitsOneFailure(c);
    hide RecordStep, AcquireStep;
    var s := ss[|es|];
    ProbeGranted(c, s);
    ss, es := Then(c, ss, es, Ask(2, 1));
    StaleSuccess(c, ss[|es|]);
    ss, es := Then(c, ss, es, Finish(1, 1, true));
  }

  lemma TwoPermitsOneFailure(c: Config) returns (ss: seq<Sys>, es: seq<Event>)
    requires c == RawConfig("d", 10, 1, 1.0, 1, 1)
    ensures IsRun(c, ss, es) && |ss| == |es| + 1
    ensures var s := ss[|es|];
            && s.b.mode.Open? && s.b.openedAt == 0 && s.clock == 0 && s.outstanding == map[1 := 0]
            && s.finished == {0} && s.episode == 0
  {
    hide RecordStep, Next, Enabled;
    ss, es := [Init(0)], [];
    assert IsRun(c, ss, es);
    hide IsRun;
    GrantedWhileClosed(c, ss[0], 0);
    ss, es := Then(c, ss, es, Ask(0, 0));
    GrantedWhileClosed(c, ss[|es|], 1);
    ss, es := Then(c, ss, es, Ask(1, 0));
    FirstFailure(c, ss[|es|]);
    ss, es := Then(c, ss, es, Finish(0, 0, false));
  }

  lemma GrantedWhileClosed(c: Config, s: Sys, id: nat)
    requires s.b == INITIAL && id !in s.outstanding && id !in s.finished
    ensures Enabled(s, Ask(id, s.clock))
    ensures Next(c, s, Ask(id, s.clock)) == s.(outstanding := s.outstanding[id := 0])
  {
  }

  lemma FirstFailure(c: Config, s: Sys)
    requires c == RawConfig("d", 10, 1, 1.0, 1, 1) && s.b == INITIAL && s.clock == 0 && s.episode == 0
    requires s.outstanding == map[0 := 0, 1 := 0] && s.finished == {}
    ensures Enabled(s, Finish(0, 0, false))
    ensures var t := Next(c, s, Finish(0, 0, false));
            && t.b.mode.Open? && t.b.openedAt == 0 && t.clock == 0 && t.outstanding == map[1 := 0]
            && t.finished == {0} && t.episode == 0
  {
    hide RecordStep;
    OneFailure(c, s.b);
    assert s.outstanding - {0} == map[1 := 0];
  }

  lemma ProbeGranted(c: Config, s: Sys)
    requires c == RawConfig("d", 10, 1, 1.0, 1, 1)
    requires s.b.mode.Open? && s.b.openedAt == 0 && s.clock == 0 && s.outstanding == map[1 := 0] && s.finished == {0} && s.episode == 0
    ensures Enabled(s, Ask(2, 1))
    ensures var t := Next(c, s, Ask(2, 1));
            && t.b.mode.HalfOpen? && t.b.inFlight == 1 && t.b.successes == 0 && t.clock == 1
            && t.outstanding == map[1 := 0, 2 := 1] && t.episode == 1 && t.counted == []
  {
  }

  lemma StaleSuccess(c: Config, s: Sys)
    requires c == RawConfig("d", 10, 1, 1.0, 1, 1)
    requires s.b.mode.HalfOpen? && s.b.inFlight == 1 && s.b.successes == 0 && s.clock == 1
    requires s.outstanding == map[1 := 0, 2 := 1] && s.episode == 1 && s.counted == []
    ensures Enabled(s, Finish(1, 1, true))
    ensures var t := Next(c, s, Finish(1, 1, true));
            t.b.mode.Closed? && t.counted == [(0, true)] && t.episode == 1 && t.outstanding == map[2 := 1]
  {
  }

  lemma OneFailure(c: Config, s: State)
    requires c == RawConfig("d", 10, 1, 1.0, 1, 1) && s == INITIAL
    ensures RecordStep(c, s, 0, false) == Opened(s.(outcomes := [Outcome(0, false)]), 0)
  {
    assert DropStale([Outcome(0, false)], -10) == [Outcome(0, false)];
    assert [Outcome(0, false)][..0] == [];
    assert Failures([Outcome(0, false)]) == 1;
  }

  // ----------------------------------------------------------- the bound is reached

  lemma {:induction false} UnusedId(ids: set<nat>) returns (id: nat)
    ensures forall x :: x in ids ==> x < id
  {
    if ids == {} { return 0; }
    var x :| x in ids;
    var y := UnusedId(ids - {x});
    assert forall z :: z in ids ==> z == x || z in ids - {x};
    id := if x < y then y else x + 1;
  }

  /** From the start of an episode (or any state that still has every grant unspent) callers
      can make it grant 2 * halfOpenProbes - 1 permits, for every configuration. */
  lemma {:induction false} SpendGrants(c: Config, s: Sys) returns (es: seq<Event>, t: Sys)
    requires ProbesOk(c, s) && s.b.mode.HalfOpen? && s.granted == s.b.inFlight + s.b.successes
    ensures Path(c, s, es, t) && t.b.mode.HalfOpen? && t.episode == s.episode
    ensures t.granted == 2 * c.halfOpenProbes - 1
    decreases c.halfOpenProbes - s.b.successes, c.halfOpenProbes - s.b.inFlight
  {
    var e: Event;
    if s.b.inFlight < c.halfOpenProbes {
      var id := UnusedId(s.outstanding.Keys + s.finished);
      e := Ask(id, s.clock);
    } else if s.b.successes < c.halfOpenProbes - 1 {
      assert OfEpisode(s.outstanding, s.episode) != {};
      var id :| id in OfEpisode(s.outstanding, s.episode);
      e := Finish(id, s.clock, true);
    } else {
      return [], s;
    }
    ProbesStep(c, s, e);
    var rest;
    rest, t := SpendGrants(c, Next(c, s, e));
    es := [e] + rest;
    assert es[1..] == rest;
  }

  /** k failures recorded at time 0 and nothing else. */
  function Failed(k: nat): seq<Outcome> {
    seq(k, _ => Outcome(0, false))
  }

  ghost predicate AfterFailures(s: Sys, k: nat) {
    && s.b == INITIAL.(outcomes := Failed(k)) && s.clock == 0 && s.episode == 0
    && s.outstanding == map[] && forall id :: id in s.finished ==> id < k
  }

  lemma {:induction false} FailuresOfFailed(k: nat)
    ensures Failures(Failed(k)) == k
  {
    if k > 0 {
      FailuresOfFailed(k - 1);
      assert Failed(k)[..k - 1] == Failed(k - 1);
    }
  }

  lemma RecordFailure(c: Config, k: nat)
    ensures var t := RecordStep(c, INITIAL.(outcomes := Failed(k)), 0, false);
            if k + 1 < c.minimumRequests then t == INITIAL.(outcomes := Failed(k + 1)) else t.mode.Open? && t.openedAt == 0
  {
    hide Failures, DropStale, Trips;
    assert Failed(k) + [Outcome(0, false)] == Failed(k + 1);
    NothingStale(c, k + 1);
    AllFailedTrips(c, k + 1);
  }

  lemma NothingStale(c: Config, k: nat)
    ensures DropStale(Failed(k), -c.rollingWindow) == Failed(k)
  {
    if k > 0 { assert Failed(k)[0] == Outcome(0, false); }
  }

  lemma AllFailedTrips(c: Config, k: nat)
    requires k > 0
    ensures Trips(c, Failed(k)) <==> k >= c.minimumRequests
  {
    hide Failures;
    FailuresOfFailed(k);
    assert k as real / k as real == 1.0;
  }

  /** Failing calls one after the other, until one record opens the breaker. */
  lemma {:induction false} FailUntilOpen(c: Config, s: Sys, k: nat) returns (es: seq<Event>, t: Sys)
    requires AfterFailures(s, k) && k < c.minimumRequests
    ensures Path(c, s, es, t) && t.b.mode.Open? && t.b.openedAt == 0 && t.clock == 0 && t.outstanding == map[]
    decreases c.minimumRequests - k
  {
    var u := Next(c, s, Ask(k, 0));
    RecordFailure(c, k);
    t := Next(c, u, Finish(k, 0, false));
    var rest := [];
    if k + 1 < c.minimumRequests { rest, t := FailUntilOpen(c, t, k + 1); }
    es := [Ask(k, 0), Finish(k, 0, false)] + rest;
    assert es[1..] == [Finish(k, 0, false)] + rest && es[1..][1..] == rest;
  }

  /** MAIN RESULT: the half-open bound is tight: every configuration has a run in which one
      episode has granted 2 * halfOpenProbes - 1 permits. */
  lemma BoundIsReached(c: Config) returns (ss: seq<Sys>, es: seq<Event>)
    ensures IsRun(c, ss, es) && |ss| == |es| + 1
    ensures ss[|es|].b.mode.HalfOpen? && ss[|es|].granted == 2 * c.halfOpenProbes - 1
  {
    ss, es := [Init(0)], [];
    var fs, t := FailUntilOpen(c, Init(0), 0);
    ss, es := RunOn(c, ss, es, fs, t);
    var id := UnusedId(t.finished);
    var e := Ask(id, c.openDuration);
    RunOk(c, ss, es);
    ProbesStep(c, t, e);
    ss, es := Then(c, ss, es, e);
    fs, t := SpendGrants(c, ss[|es|]);
    ss, es := RunOn(c, ss, es, fs, t);
  }
}
