/** When the breaker opens, counted on the whole history of results. */
module BreakerWindow {
  import opened CircuitBreaker
  import opened BreakerRuns

  /** Which of the recorded outcomes are not older than the cutoff. */
  function Recent(history: seq<Outcome>, cutoff: int): set<int> {
    set i | 0 <= i < |history| && history[i].at >= cutoff
  }

  function RecentFailures(history: seq<Outcome>, cutoff: int): set<int> {
    set i | 0 <= i < |history| && history[i].at >= cutoff && !history[i].success
  }

  lemma RecentOneMore(history: seq<Outcome>, cutoff: int)
    requires history != []
    ensures var k := |history| - 1;
            && |Recent(history, cutoff)| == |Recent(history[..k], cutoff)| + (if history[k].at >= cutoff then 1 else 0)
            && |RecentFailures(history, cutoff)| ==
               |RecentFailures(history[..k], cutoff)| + (if history[k].at >= cutoff && !history[k].success then 1 else 0)
  {
    var k := |history| - 1;
    assert Recent(history, cutoff) == Recent(history[..k], cutoff) + (if history[k].at >= cutoff then {k} else {});
    assert RecentFailures(history, cutoff) ==
           RecentFailures(history[..k], cutoff) + (if history[k].at >= cutoff && !history[k].success then {k} else {});
  }

  lemma FailuresSnoc(xs: seq<Outcome>, x: Outcome)
    ensures Failures(xs + [x]) == Failures(xs) + (if x.success then 0 else 1)
  {
    assert (xs + [x])[..|xs|] == xs;
  }

  lemma {:induction false} SinceCounts(history: seq<Outcome>, cutoff: int)
    ensures |Since(history, cutoff)| == |Recent(history, cutoff)|
    ensures Failures(Since(history, cutoff)) == |RecentFailures(history, cutoff)|
  {
    if history == [] {
      assert Recent(history, cutoff) == {} && RecentFailures(history, cutoff) == {};
    } else {
      var k := |history| - 1;
      SinceCounts(history[..k], cutoff);
      RecentOneMore(history, cutoff);
      FailuresSnoc(Since(history[..k], cutoff), history[k]);
      assert Since(history[..k], cutoff) + [] == Since(history[..k], cutoff);
    }
    hide Recent, RecentFailures, Failures;
  }

  /** On sorted outcomes those are the last ones. */
  lemma {:induction false} SinceIsSuffix(history: seq<Outcome>, cutoff: int)
    requires Sorted(history)
    ensures |Since(history, cutoff)| <= |history|
    ensures Since(history, cutoff) == history[|history| - |Since(history, cutoff)|..]
  {
    if history != [] {
      var k := |history| - 1;
      if history[k].at >= cutoff {
        SinceIsSuffix(history[..k], cutoff);
      } else {
        NoneSince(history, cutoff);
      }
    }
  }

  lemma {:induction false} NoneSince(history: seq<Outcome>, cutoff: int)
    requires forall i :: 0 <= i < |history| ==> history[i].at < cutoff
    ensures Since(history, cutoff) == []
  {
    if history != [] { NoneSince(history[..|history| - 1], cutoff); }
  }

  lemma ShareAtLeast(failures: nat, n: nat, threshold: real)
    requires n > 0
    ensures failures as real / n as real >= threshold <==> failures as real >= threshold * n as real
  {
    var share := failures as real / n as real;
    assert share * n as real == failures as real;
    if share >= threshold { assert share * n as real >= threshold * n as real; }
    if share < threshold { assert share * n as real < threshold * n as real; }
  }

  lemma TripsWhen(c: Config, window: seq<Outcome>)
    ensures Trips(c, window) <==>
      |window| >= c.minimumRequests && Failures(window) as real >= c.failureThreshold * |window| as real
  {
    hide Failures;
    if |window| > 0 { ShareAtLeast(Failures(window), |window|, c.failureThreshold); }
  }

  /** Whether it trips, counted on the whole history. */
  lemma TripsIff(c: Config, history: seq<Outcome>, cutoff: int)
    ensures Trips(c, Since(history, cutoff)) <==>
      && |Recent(history, cutoff)| >= c.minimumRequests
      && |RecentFailures(history, cutoff)| as real >= c.failureThreshold * |Recent(history, cutoff)| as real
  {
    hide Recent, RecentFailures, Since, Failures, Trips;
    SinceCounts(history, cutoff);
    TripsWhen(c, Since(history, cutoff));
  }

  /** The slice is exactly the outcomes not older than the cutoff, and the breaker is open
      exactly if these number at least minimumRequests and the failures among them are at
      least the threshold's share. */
  ghost predicate JudgedOn(c: Config, history: seq<Outcome>, cutoff: int, b: State) {
    var n := |Recent(history, cutoff)|;
    && n <= |history| && b.outcomes == history[|history| - n..]
    && (b.mode.Open? <==>
          n >= c.minimumRequests && |RecentFailures(history, cutoff)| as real >= c.failureThreshold * n as real)
  }

  /** MAIN RESULT: the rolling window. A record in Closed is judged on the outcomes recorded
      since the last close and not older than the window. */
  lemma OpensExactlyOnWindow(c: Config, ss: seq<Sys>, es: seq<Event>, id: nat, now: int, success: bool)
    requires IsRun(c, ss, es) && ss[|es|].b.mode.Closed? && Enabled(ss[|es|], Finish(id, now, success))
    ensures var s := ss[|es|];
            var t := Next(c, s, Finish(id, now, success));
            && t.history == s.history + [Outcome(now, success)]
            && JudgedOn(c, t.history, now - c.rollingWindow, t.b)
            && (t.b.mode.Closed? || (t.b.mode.Open? && t.b.openedAt == now))
  {
    hide ProbesOk, WindowOk, RecordStep, DropStale, Since, Sorted, Trips, JudgedOn;
    RunOk(c, ss, es);
    SliceIsWindow(c, ss[|es|], now, success);
    RecordInClosed(c, ss[|es|].b, now, success);
    var h, cutoff := ss[|es|].history + [Outcome(now, success)], now - c.rollingWindow;
    JudgedOnSince(c, h, cutoff, RecordStep(c, ss[|es|].b, now, success));
  }

  lemma RecordInClosed(c: Config, b: State, now: int, success: bool)
    requires b.mode.Closed?
    ensures var t := RecordStep(c, b, now, success);
            && t.outcomes == DropStale(b.outcomes + [Outcome(now, success)], now - c.rollingWindow)
            && (t.mode.Open? <==> Trips(c, t.outcomes))
            && (t.mode.Closed? || (t.mode.Open? && t.openedAt == now))
  {
    hide DropStale, Trips;
  }

  lemma JudgedOnSince(c: Config, history: seq<Outcome>, cutoff: int, b: State)
    requires Sorted(history) && b.outcomes == Since(history, cutoff) && (b.mode.Open? <==> Trips(c, b.outcomes))
    ensures JudgedOn(c, history, cutoff, b)
  {
    hide Since, Sorted, Recent, RecentFailures, Trips;
    TripsIff(c, history, cutoff);
    SinceIsSuffix(history, cutoff);
    SinceCounts(history, cutoff);
  }

  /** Without a failure in the window the breaker stays closed; with nothing else and enough of
      them it opens. */
  lemma ThresholdExtremes(c: Config, history: seq<Outcome>, cutoff: int)
    requires |Recent(history, cutoff)| >= c.minimumRequests
    ensures RecentFailures(history, cutoff) == {} ==> !Trips(c, Since(history, cutoff))
    ensures RecentFailures(history, cutoff) == Recent(history, cutoff) ==> Trips(c, Since(history, cutoff))
  {
    TripsIff(c, history, cutoff);
    hide Recent, RecentFailures, Trips, Since;
    var n := |Recent(history, cutoff)|;
    assert 0.0 < c.failureThreshold * n as real <= n as real;
  }
}
