/** The breaker under every interleaving of callers: permits are granted, held for any time,
    and finished in any order, possibly in a later state than the one they were granted in. */
module BreakerRuns {
  import opened CircuitBreaker

  /** `outstanding` maps each unfinished permit to the half-open episode it was granted in
      (0: granted while closed). `granted` and `counted` belong to the current episode: how
      many permits it granted, and the results it recorded, each with the episode of its
      permit. `strangers`: permits outstanding when the episode began. `history`: everything recorded
      while closed since the last close. */
  datatype Sys = Sys(
    b: State, clock: int,
    outstanding: map<nat, nat>, finished: set<nat>,
    episode: nat, granted: nat, counted: seq<(nat, bool)>, strangers: set<nat>,
    history: seq<Outcome>)

  datatype Event = Ask(id: nat, now: int) | Finish(id: nat, now: int, success: bool)

  function Init(clock: int): Sys {
    Sys(INITIAL, clock, map[], {}, 0, 0, [], {}, [])
  }

  predicate Enabled(s: Sys, e: Event) {
    && e.now >= s.clock
    && (e.Ask? ==> e.id !in s.outstanding && e.id !in s.finished)
    && (e.Finish? ==> e.id in s.outstanding)
  }

  function Next(c: Config, s: Sys, e: Event): Sys
    requires Enabled(s, e)
  {
    match e
    case Ask(id, now) =>
      var (t, ok) := AcquireStep(c, s.b, now);
      var u := s.(b := t, clock := now);
      if !ok then u
      else if !t.mode.HalfOpen? then u.(outstanding := s.outstanding[id := 0])
      else if s.b.mode.Open? then
        u.(outstanding := s.outstanding[id := s.episode + 1], episode := s.episode + 1, granted := 1, counted := [],
           strangers := s.outstanding.Keys)
      else u.(outstanding := s.outstanding[id := s.episode], granted := s.granted + 1)
    case Finish(id, now, success) =>
      var t := RecordStep(c, s.b, now, success);
      s.(b := t, clock := now, outstanding := s.outstanding - {id}, finished := s.finished + {id},
         counted := if s.b.mode.HalfOpen? then s.counted + [(s.outstanding[id], success)] else s.counted,
         history := if s.b.mode.Closed? then s.history + [Outcome(now, success)]
                    else if s.b.mode.HalfOpen? && t.mode.Closed? then [] else s.history)
  }

  ghost predicate IsRun(c: Config, ss: seq<Sys>, es: seq<Event>) {
    && |ss| == |es| + 1
    && ss[0] == Init(ss[0].clock)
    && forall i :: 0 <= i < |es| ==> Enabled(ss[i], es[i]) && ss[i + 1] == Next(c, ss[i], es[i])
  }

  /** The unfinished permits of episode k. */
  function OfEpisode(outstanding: map<nat, nat>, k: nat): set<nat> {
    set id | id in outstanding && outstanding[id] == k
  }

  // --------------------------------------------------------------- half-open state

  ghost predicate ProbesOk(c: Config, s: Sys) {
    && 0 <= s.b.inFlight <= c.halfOpenProbes
    && 0 <= s.b.successes < c.halfOpenProbes
    && (!s.b.mode.HalfOpen? ==> s.b.successes == 0)
    && (s.b.mode.HalfOpen? ==>
          && s.episode > 0
          && s.granted <= s.b.inFlight + s.b.successes
          && s.b.successes == |s.counted|
          && (forall i :: 0 <= i < |s.counted| ==> s.counted[i].1)
          && s.b.inFlight <= |OfEpisode(s.outstanding, s.episode)|)
    && (forall id :: id in s.outstanding ==> s.outstanding[id] <= s.episode)
  }

  lemma EpisodeAdd(outstanding: map<nat, nat>, id: nat, k: nat)
    requires id !in outstanding
    ensures |OfEpisode(outstanding[id := k], k)| == |OfEpisode(outstanding, k)| + 1
  {
    assert OfEpisode(outstanding[id := k], k) == OfEpisode(outstanding, k) + {id};
  }

  lemma EpisodeDrop(outstanding: map<nat, nat>, id: nat, k: nat)
    ensures |OfEpisode(outstanding - {id}, k)| >= |OfEpisode(outstanding, k)| - 1
  {
    assert OfEpisode(outstanding - {id}, k) == OfEpisode(outstanding, k) - {id};
  }

  lemma ProbesStep(c: Config, s: Sys, e: Event)
    requires ProbesOk(c, s) && Enabled(s, e)
    ensures ProbesOk(c, Next(c, s, e))
  {
    match e
    case Ask(id, now) =>
      EpisodeAdd(s.outstanding, id, s.episode);
      EpisodeAdd(s.outstanding, id, s.episode + 1);
    case Finish(id, now, success) =>
      EpisodeDrop(s.outstanding, id, s.episode);
  }

  // ----------------------------------------------------------------- rolling window

  /** The outcomes at or after the cutoff. */
  function Since(history: seq<Outcome>, cutoff: int): seq<Outcome> {
    if history == [] then [] else
    var x := history[|history| - 1];
    Since(history[..|history| - 1], cutoff) + (if x.at >= cutoff then [x] else [])
  }

  ghost predicate Sorted(history: seq<Outcome>) {
    forall i, j :: 0 <= i < j < |history| ==> history[i].at <= history[j].at
  }

  ghost predicate WindowOk(c: Config, s: Sys) {
    && Sorted(s.history)
    && (s.history != [] ==> s.history[|s.history| - 1].at <= s.clock)
    && (s.b.mode.Closed? ==> s.b.outcomes == WindowAtLast(c, s.history))
  }

  /** The window as of the last outcome. */
  function WindowAtLast(c: Config, history: seq<Outcome>): seq<Outcome> {
    if history == [] then [] else Since(history, history[|history| - 1].at - c.rollingWindow)
  }

  lemma {:induction false} SinceSorted(history: seq<Outcome>, cutoff: int)
    requires Sorted(history)
    ensures Sorted(Since(history, cutoff))
    ensures forall i :: 0 <= i < |Since(history, cutoff)| ==> Since(history, cutoff)[i].at >= cutoff
    ensures history != [] && Since(history, cutoff) != [] ==>
      Since(history, cutoff)[|Since(history, cutoff)| - 1] == history[|history| - 1]
  {
    if history != [] {
      var front, x := history[..|history| - 1], history[|history| - 1];
      SinceSorted(front, cutoff);
      assert front != [] ==> front[|front| - 1].at <= x.at;
      SinceOneMore(front, x, Since(front, cutoff), cutoff);
      assert Since(history, cutoff) == Since(front, cutoff) + (if x.at >= cutoff then [x] else []);
    }
    hide Since, Sorted;
  }

  lemma SinceOneMore(front: seq<Outcome>, x: Outcome, kept: seq<Outcome>, cutoff: int)
    requires Sorted(kept) && (forall i :: 0 <= i < |kept| ==> kept[i].at >= cutoff)
    requires front == [] ==> kept == []
    requires front != [] ==> front[|front| - 1].at <= x.at
    requires front != [] && kept != [] ==> kept[|kept| - 1] == front[|front| - 1]
    ensures var more := kept + (if x.at >= cutoff then [x] else []);
            && Sorted(more) && (forall i :: 0 <= i < |more| ==> more[i].at >= cutoff)
            && (more != [] ==> more[|more| - 1] == x)
  {
    if x.at >= cutoff { SortedSnoc(kept, x); }
  }

  /** Filtering twice with a growing cutoff is filtering once. */
  lemma {:induction false} SinceSince(history: seq<Outcome>, a: int, b: int)
    requires a <= b
    ensures Since(Since(history, a), b) == Since(history, b)
  {
    if history != [] {
      var k := |history| - 1;
      SinceSince(history[..k], a, b);
      var front := Since(history[..k], a);
      if history[k].at >= a {
        assert (front + [history[k]])[..|front|] == front;
      } else {
        assert front + [] == front;
        assert Since(history[..k], b) + [] == Since(history[..k], b);
      }
    }
  }

  /** On sorted outcomes dropping the stale prefix is filtering. */
  lemma {:induction false} DropIsSince(history: seq<Outcome>, cutoff: int)
    requires Sorted(history)
    ensures DropStale(history, cutoff) == Since(history, cutoff)
  {
    if history != [] && history[0].at < cutoff {
      DropIsSince(history[1..], cutoff);
      SinceTail(history, cutoff);
    } else {
      AllSince(history, cutoff);
    }
  }

  lemma {:induction false} SinceTail(history: seq<Outcome>, cutoff: int)
    requires history != [] && history[0].at < cutoff
    ensures Since(history[1..], cutoff) == Since(history, cutoff)
  {
    if |history| > 1 {
      var k := |history| - 1;
      SinceTail(history[..k], cutoff);
      assert history[..k][1..] == history[1..][..k - 1];
    }
  }

  lemma {:induction false} AllSince(history: seq<Outcome>, cutoff: int)
    requires forall i :: 0 <= i < |history| ==> history[i].at >= cutoff
    ensures Since(history, cutoff) == history
  {
    if history != [] {
      var k := |history| - 1;
      AllSince(history[..k], cutoff);
      assert history == history[..k] + [history[k]];
    }
  }

  lemma SortedSnoc(xs: seq<Outcome>, x: Outcome)
    requires Sorted(xs) && (xs != [] ==> xs[|xs| - 1].at <= x.at)
    ensures Sorted(xs + [x])
  {
    var ys := xs + [x];
    forall i, j | 0 <= i < j < |ys| ensures ys[i].at <= ys[j].at {
      if j == |xs| && i < |xs| - 1 { assert xs[i].at <= xs[|xs| - 1].at; }
    }
  }

  lemma SinceSnoc(xs: seq<Outcome>, x: Outcome, cutoff: int)
    ensures Since(xs + [x], cutoff) == Since(xs, cutoff) + (if x.at >= cutoff then [x] else [])
  {
    assert (xs + [x])[..|xs|] == xs;
  }

  /** The slice so far, filtered again, is the whole history filtered. */
  lemma SliceSince(c: Config, history: seq<Outcome>, cutoff: int)
    requires Sorted(history) && (history != [] ==> cutoff >= history[|history| - 1].at - c.rollingWindow)
    ensures var slice := WindowAtLast(c, history);
            && Sorted(slice) && Since(slice, cutoff) == Since(history, cutoff)
            && (slice != [] ==> history != [] && slice[|slice| - 1] == history[|history| - 1])
  {
    if history != [] {
      SinceSorted(history, history[|history| - 1].at - c.rollingWindow);
      SinceSince(history, history[|history| - 1].at - c.rollingWindow, cutoff);
    }
  }

  /** The slice after one more outcome is the filter over the whole history. */
  lemma SliceIsWindow(c: Config, s: Sys, now: int, success: bool)
    requires WindowOk(c, s) && s.b.mode.Closed? && now >= s.clock
    ensures var h := s.history + [Outcome(now, success)];
            && Sorted(h)
            && DropStale(s.b.outcomes + [Outcome(now, success)], now - c.rollingWindow) == Since(h, now - c.rollingWindow)
  {
    var x, cutoff := Outcome(now, success), now - c.rollingWindow;
    SliceSince(c, s.history, cutoff);
    SortedSnoc(s.history, x);
    SortedSnoc(s.b.outcomes, x);
    DropIsSince(s.b.outcomes + [x], cutoff);
    SinceSnoc(s.b.outcomes, x, cutoff);
    SinceSnoc(s.history, x, cutoff);
  }

  lemma WindowStep(c: Config, s: Sys, e: Event)
    requires WindowOk(c, s) && Enabled(s, e)
    ensures WindowOk(c, Next(c, s, e))
  {
    hide Since, DropStale, Sorted, Failures, Trips;
    if e.Finish? && s.b.mode.Closed? {
      ClosedWindowStep(c, s, e);
    } else {
      EmptyWindow(c);
    }
  }

  lemma EmptyWindow(c: Config)
    ensures Sorted([]) && WindowAtLast(c, []) == []
  {
  }

  lemma ClosedWindowStep(c: Config, s: Sys, e: Event)
    requires WindowOk(c, s) && Enabled(s, e) && e.Finish? && s.b.mode.Closed?
    ensures WindowOk(c, Next(c, s, e))
  {
    hide Since, DropStale, Sorted, RecordStep;
    SliceIsWindow(c, s, e.now, e.success);
    ClosedRecord(c, s.b, e.now, e.success);
  }

  lemma ClosedRecord(c: Config, b: State, now: int, success: bool)
    requires b.mode.Closed?
    ensures var t := RecordStep(c, b, now, success);
            t.mode.Closed? ==> t.outcomes == DropStale(b.outcomes + [Outcome(now, success)], now - c.rollingWindow)
  {
    hide DropStale, Trips;
  }

  // ------------------------------------------------------------------------ runs

  lemma {:induction false} RunOk(c: Config, ss: seq<Sys>, es: seq<Event>)
    requires IsRun(c, ss, es)
    ensures ProbesOk(c, ss[|es|]) && WindowOk(c, ss[|es|])
  {
    if es != [] {
      var k := |es| - 1;
      assert IsRun(c, ss[..k + 1], es[..k]);
      RunOk(c, ss[..k + 1], es[..k]);
      ProbesStep(c, ss[k], es[k]);
      WindowStep(c, ss[k], es[k]);
    }
  }

  /** MAIN RESULT: the half-open bound. In every reachable state, results of stale permits
      included, the two probe counters are bounded, and the current half-open episode has
      granted at most 2 * halfOpenProbes - 1 permits. */
  lemma HalfOpenBound(c: Config, ss: seq<Sys>, es: seq<Event>)
    requires IsRun(c, ss, es)
    ensures var s := ss[|es|];
            && 0 <= s.b.inFlight <= c.halfOpenProbes && 0 <= s.b.successes < c.halfOpenProbes
            && (s.b.mode.HalfOpen? ==> s.granted <= 2 * c.halfOpenProbes - 1)
  {
    RunOk(c, ss, es);
  }

  /** MAIN RESULT: the breaker cannot get stuck. With no permit outstanding, an Acquire is
      granted unless the breaker is open and openDuration has not passed. */
  lemma NeverStuck(c: Config, ss: seq<Sys>, es: seq<Event>, now: int)
    requires IsRun(c, ss, es) && ss[|es|].outstanding == map[]
    ensures var s := ss[|es|];
            && (AcquireStep(c, s.b, now).1 <==> !(s.b.mode.Open? && now - s.b.openedAt < c.openDuration))
            && (AcquireStep(c, s.b, now).1 <==> !AcquireStep(c, s.b, now).0.mode.Open?)
  {
    RunOk(c, ss, es);
    assert OfEpisode(ss[|es|].outstanding, ss[|es|].episode) == {};
  }

  /** Records while Open change nothing, and Open is left only by a granted Acquire after
      openDuration, into HalfOpen. */
  lemma OpenStep(c: Config, s: Sys, e: Event)
    requires Enabled(s, e) && s.b.mode.Open?
    ensures Next(c, s, e).b == s.b || (e.Ask? && e.now - s.b.openedAt >= c.openDuration && Next(c, s, e).b.mode.HalfOpen?)
    ensures e.Ask? && e.id in Next(c, s, e).outstanding ==> Next(c, s, e).b != s.b
  {
  }

  /** Event i opened the breaker. */
  ghost predicate OpensAt(ss: seq<Sys>, es: seq<Event>, i: nat)
    requires |ss| == |es| + 1 && i < |es|
  {
    ss[i + 1].b.mode.Open? && !ss[i].b.mode.Open?
  }

  /** Event i was granted a permit. */
  ghost predicate GrantsAt(ss: seq<Sys>, es: seq<Event>, i: nat)
    requires |ss| == |es| + 1 && i < |es|
  {
    es[i].Ask? && es[i].id in ss[i + 1].outstanding
  }

  /** Until the next grant the breaker stays as it was when it opened. */
  lemma {:induction false} OpenUntilGrant(c: Config, ss: seq<Sys>, es: seq<Event>, i: nat, j: nat)
    requires IsRun(c, ss, es) && i < j <= |es| && OpensAt(ss, es, i)
    requires forall k :: i < k < j ==> !GrantsAt(ss, es, k)
    ensures ss[j].b.mode.Open? && ss[j].b.openedAt == es[i].now
    decreases j
  {
    if j == i + 1 {
      assert ss[i + 1] == Next(c, ss[i], es[i]);
    } else {
      OpenUntilGrant(c, ss, es, i, j - 1);
      assert !GrantsAt(ss, es, j - 1);
      OpenStep(c, ss[j - 1], es[j - 1]);
    }
  }

  /** MAIN RESULT: between an opening and the next grant at least openDuration passes. */
  lemma OpenLastsLongEnough(c: Config, ss: seq<Sys>, es: seq<Event>, i: nat, j: nat)
    requires IsRun(c, ss, es) && i < j < |es| && OpensAt(ss, es, i) && GrantsAt(ss, es, j)
    requires forall k :: i < k < j ==> !GrantsAt(ss, es, k)
    ensures es[j].now - es[i].now >= c.openDuration
    ensures ss[j].b.mode.Open? && ss[j + 1].b.mode.HalfOpen?
  {
    OpenUntilGrant(c, ss, es, i, j);
    OpenStep(c, ss[j], es[j]);
    assert ss[j + 1] == Next(c, ss[j], es[j]);
  }

  /** MAIN RESULT: how the breaker closes. It gets to Closed only from HalfOpen, by a successful
      record, and exactly when that episode has then recorded halfOpenProbes results, all
      successful. */
  lemma ClosesOnlyOnProbes(c: Config, ss: seq<Sys>, es: seq<Event>, e: Event)
    requires IsRun(c, ss, es) && Enabled(ss[|es|], e) && !ss[|es|].b.mode.Closed?
    ensures var s, t := ss[|es|], Next(c, ss[|es|], e);
            t.b.mode.Closed? <==>
              && s.b.mode.HalfOpen? && e.Finish?
              && |t.counted| == c.halfOpenProbes
              && (forall i :: 0 <= i < |t.counted| ==> t.counted[i].1)
  {
    RunOk(c, ss, es);
    var s, t := ss[|es|], Next(c, ss[|es|], e);
    if e.Finish? && s.b.mode.HalfOpen? {
      assert t.counted[|s.counted|].1 == e.success;
    }
  }
}
