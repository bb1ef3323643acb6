/** The retry executor (internal/resilience/executor.go) on top of a shared breaker. */
module Executor {
  import opened Wrappers
  import opened CircuitBreaker

  /** What another caller may do to the breaker while an operation runs. */
  datatype Other = OtherAcquire(now: int) | OtherRecord(now: int, success: bool)

  /** Everything one attempt meets: the context's error before it, the clock readings, the
      other callers, the operation's result, whether the policy retries that error, and the
      context's error during the backoff. */
  datatype Attempt<T> = Attempt(
    ctxError: Option<string>, askAt: int, others: seq<Other>, result: Result<T>, doneAt: int,
    retry: bool, backoffError: Option<string>)

  /** What Do does, in order; a call goes with what the other callers do meanwhile. */
  datatype Act = Asked(at: int, granted: bool) | Called(others: seq<Other>) | Finished(at: int, success: bool)

  const CIRCUIT_OPEN := "circuit breaker is open"

  function OthersStep(c: Config, s: State, others: seq<Other>): State {
    if others == [] then s else
    var t := OthersStep(c, s, others[..|others| - 1]);
    match others[|others| - 1]
    case OtherAcquire(now) => AcquireStep(c, t, now).0
    case OtherRecord(now, success) => RecordStep(c, t, now, success)
  }

  /** The other callers act one after the other; two failures of theirs open a breaker for which
      two are enough. */
  lemma OthersAct(c: Config, now: int)
    requires c.minimumRequests == 2
    ensures OthersStep(c, INITIAL, [OtherRecord(now, false), OtherAcquire(now), OtherRecord(now, false)]).mode.Open?
  {
    hide Trips;
    var a, b := OtherRecord(now, false), OtherAcquire(now);
    var one, two := [Outcome(now, false)], [Outcome(now, false), Outcome(now, false)];
    assert [a, b, a][..2] == [a, b] && [a, b][..1] == [a] && [a][..0] == [];
    TripsOnFailures(c, now);
    assert OthersStep(c, INITIAL, [a]).outcomes == one by { assert [] + one == one; }
    assert one + [Outcome(now, false)] == two;
  }

  lemma TripsOnFailures(c: Config, now: int)
    requires c.minimumRequests == 2
    ensures !Trips(c, [Outcome(now, false)]) && Trips(c, [Outcome(now, false), Outcome(now, false)])
  {
    var x := Outcome(now, false);
    assert [x, x][..1] == [x] && [x][..0] == [];
    assert Failures([x]) == 1;
    assert Failures([x, x]) == 2;
  }

  datatype Guard = Guard(cfg: Config, state: State)

  /** The breaker after asking for a permit, if the policy has one. */
  function Ask(g: Option<Guard>, now: int): (Option<Guard>, seq<Act>, bool) {
    if g.None? then (g, [], true) else
    var (t, ok) := AcquireStep(g.value.cfg, g.value.state, now);
    (Some(Guard(g.value.cfg, t)), [Asked(now, ok)], ok)
  }

  function Settle<T>(g: Option<Guard>, a: Attempt<T>): (Option<Guard>, seq<Act>) {
    if g.None? then (g, [Called(a.others)]) else
    var t := OthersStep(g.value.cfg, g.value.state, a.others);
    (Some(Guard(g.value.cfg, RecordStep(g.value.cfg, t, a.doneAt, a.result.Ok?))), [Called(a.others), Finished(a.doneAt, a.result.Ok?)])
  }

  /** Attempts i, i+1, ..., of at most n: the result, the breaker afterwards, and the acts. */
  function DoFrom<T>(n: nat, script: nat -> Attempt<T>, i: nat, g: Option<Guard>): (Result<T>, Option<Guard>, seq<Act>)
    requires 1 <= i <= n
    decreases n - i
  {
    var a := script(i);
    if a.ctxError.Some? then (Err(a.ctxError.value), g, []) else
    var (g1, asked, ok) := Ask(g, a.askAt);
    if !ok then (Err(CIRCUIT_OPEN), g1, asked) else
    var (g2, acts) := Settle(g1, a);
    if a.result.Ok? then (a.result, g2, asked + acts)
    else if i == n || !a.retry then (a.result, g2, asked + acts)
    else if a.backoffError.Some? then (Err(a.backoffError.value), g2, asked + acts)
    else
      var (r, g3, rest) := DoFrom(n, script, i + 1, g2);
      (r, g3, asked + acts + rest)
  }

  /** At least one attempt is made. */
  function AttemptsOf(attempts: int): nat {
    if attempts <= 0 then 1 else attempts
  }

  method Interfere(breaker: Breaker, others: seq<Other>)
    modifies breaker
    ensures breaker.View() == OthersStep(breaker.cfg, old(breaker.View()), others)
  {
    for i := 0 to |others|
      invariant breaker.View() == OthersStep(breaker.cfg, old(breaker.View()), others[..i])
    {
      assert others[..i + 1][..i] == others[..i];
      match others[i] {
        case OtherAcquire(now) => var _ := breaker.Acquire(now);
        case OtherRecord(now, success) => breaker.Record(now, success);
      }
    }
    assert others[..|others|] == others;
  }

  ghost function Guarded(breaker: Breaker?): Option<Guard>
    reads breaker
  {
    if breaker == null then None else Some(Guard(breaker.cfg, breaker.View()))
  }

  /** One attempt after the context check: permit, operation (with the other callers acting
      meanwhile), and the permit's result. */
  method TryOnce<T>(breaker: Breaker?, a: Attempt<T>) returns (granted: bool, ghost acts: seq<Act>)
    modifies breaker
    ensures granted == Ask(old(Guarded(breaker)), a.askAt).2
    ensures var (g, asked, ok) := Ask(old(Guarded(breaker)), a.askAt);
            if ok then Guarded(breaker) == Settle(g, a).0 && acts == asked + Settle(g, a).1
            else Guarded(breaker) == g && acts == asked
  {
    acts := [];
    if breaker == null {
      acts := [] + [Called(a.others)];
      return true, acts;
    }
    var permit := breaker.Acquire(a.askAt);
    acts := [Asked(a.askAt, permit != null)];
    if permit == null { return false, acts; }
    Interfere(breaker, a.others);
    acts := acts + [Called(a.others)];
    permit.Done(a.doneAt, a.result.Ok?);
    acts := acts + [Finished(a.doneAt, a.result.Ok?)];
    assert acts == [Asked(a.askAt, true)] + [Called(a.others), Finished(a.doneAt, a.result.Ok?)];
    return true, acts;
  }

  /** The acts so far in front of what is still to come. */
  ghost function Resumed<T>(acts: seq<Act>, rest: (Result<T>, Option<Guard>, seq<Act>)): (Result<T>, Option<Guard>, seq<Act>) {
    (rest.0, rest.1, acts + rest.2)
  }

  /** What the attempt number i does to the rest of the run. */
  lemma OneAttempt<T>(n: nat, script: nat -> Attempt<T>, i: nat, g: Option<Guard>, acts: seq<Act>)
    requires 1 <= i <= n
    ensures var a := script(i);
            var whole := Resumed(acts, DoFrom(n, script, i, g));
            if a.ctxError.Some? then whole == (Err(a.ctxError.value), g, acts) else
            var (g1, asked, ok) := Ask(g, a.askAt);
            if !ok then whole == (Err(CIRCUIT_OPEN), g1, acts + asked) else
            var (g2, more) := Settle(g1, a);
            if a.result.Ok? || i == n || !a.retry then whole == (a.result, g2, acts + (asked + more))
            else if a.backoffError.Some? then whole == (Err(a.backoffError.value), g2, acts + (asked + more))
            else whole == Resumed(acts + (asked + more), DoFrom(n, script, i + 1, g2))
  {
    hide Ask, Settle;
    assert acts + [] == acts;
    var a := script(i);
    if a.ctxError.None? {
      var (g1, asked, ok) := Ask(g, a.askAt);
      if ok && i < n {
        var (g2, more) := Settle(g1, a);
        var rest := DoFrom(n, script, i + 1, g2).2;
        assert acts + (asked + more + rest) == (acts + (asked + more)) + rest;
      }
    }
  }

  method Do<T>(attempts: int, breaker: Breaker?, script: nat -> Attempt<T>) returns (r: Result<T>, ghost acts: seq<Act>)
    modifies breaker
    ensures (r, Guarded(breaker), acts) == DoFrom(AttemptsOf(attempts), script, 1, old(Guarded(breaker)))
  {
    hide DoFrom, Ask, Settle;
    var n := AttemptsOf(attempts);
    acts := [];
    var i := 1;
    ghost var whole := DoFrom(n, script, 1, Guarded(breaker));
    assert [] + whole.2 == whole.2;
    while true
      invariant 1 <= i <= n
      invariant Resumed(acts, DoFrom(n, script, i, Guarded(breaker))) == whole
      decreases n - i
    {
      var a := script(i);
      OneAttempt(n, script, i, Guarded(breaker), acts);
      if a.ctxError.Some? { return Err(a.ctxError.value), acts; }
      var granted, more := TryOnce(breaker, a);
      acts := acts + more;
      if !granted { return Err(CIRCUIT_OPEN), acts; }
      if a.result.Ok? || i == n || !a.retry { return a.result, acts; }
      if a.backoffError.Some? { return Err(a.backoffError.value), acts; }
      i := i + 1;
    }
  }

  // ------------------------------------------------------ what the acts do to a breaker

  /** One act on a breaker. */
  function Applied(c: Config, s: State, act: Act): State {
    match act
    case Asked(at, _) => AcquireStep(c, s, at).0
    case Called(others) => OthersStep(c, s, others)
    case Finished(at, success) => RecordStep(c, s, at, success)
  }

  function Replayed(c: Config, s: State, acts: seq<Act>): State
    decreases acts
  {
    if acts == [] then s else Replayed(c, Applied(c, s, acts[0]), acts[1..])
  }

  /** Every request was answered as the breaker, at that moment, answers it. */
  predicate Answered(c: Config, s: State, acts: seq<Act>)
    decreases acts
  {
    acts == [] ||
    ((acts[0].Asked? ==> acts[0].granted == AcquireStep(c, s, acts[0].at).1)
     && Answered(c, Applied(c, s, acts[0]), acts[1..]))
  }

  lemma {:induction false} ReplayAppend(c: Config, s: State, a: seq<Act>, b: seq<Act>)
    ensures Replayed(c, s, a + b) == Replayed(c, Replayed(c, s, a), b)
    ensures Answered(c, s, a + b) <==> Answered(c, s, a) && Answered(c, Replayed(c, s, a), b)
    decreases a
  {
    if a == [] {
      assert a + b == b;
    } else {
      assert (a + b)[1..] == a[1..] + b;
      ReplayAppend(c, Applied(c, s, a[0]), a[1..], b);
    }
  }

  lemma OneActReplayed(c: Config, s: State, act: Act)
    ensures Replayed(c, s, [act]) == Applied(c, s, act)
    ensures Answered(c, s, [act]) <==> (act.Asked? ==> act.granted == AcquireStep(c, s, act.at).1)
  {
    assert [act][1..] == [];
  }

  // ------------------------------------------------------------ the attempts one by one

  /** The acts of one attempt that got through to the operation. */
  function Round<T>(a: Attempt<T>, guarded: bool): seq<Act> {
    if guarded then [Asked(a.askAt, true), Called(a.others), Finished(a.doneAt, a.result.Ok?)]
    else [Called(a.others)]
  }

  /** The acts of k attempts from number i on. */
  function Rounds<T>(script: nat -> Attempt<T>, i: nat, k: nat, guarded: bool): seq<Act>
    decreases k
  {
    if k == 0 then [] else Round(script(i), guarded) + Rounds(script, i + 1, k - 1, guarded)
  }

  /** The attempt failed, the policy retries that error, and the backoff ended well. */
  predicate GoesOn<T>(a: Attempt<T>) {
    a.result.Err? && a.retry && a.backoffError.None?
  }

  /** How Do ends after its last call: with that call's outcome, or at the start of the next
      attempt because the context is done or the breaker refuses. */
  datatype Ending = AfterCall | Cancelled | Refused

  /** Do made exactly k calls, numbered i and up, of which all but perhaps the last failed and
      were retried, and ended like this. */
  ghost predicate EndsLike<T>(n: nat, script: nat -> Attempt<T>, i: nat, guarded: bool, k: nat, end: Ending,
                              r: Result<T>, acts: seq<Act>) {
    && i + k <= n + 1
    && (forall j: nat :: i <= j < i + k ==> script(j).ctxError.None?)
    && (forall j: nat :: i <= j < i + k - 1 ==> GoesOn(script(j)))
    && match end
       case AfterCall =>
         && k > 0 && acts == Rounds(script, i, k, guarded)
         && var last := script(i + k - 1);
            && (i + k - 1 == n || !GoesOn(last))
            && r == if last.result.Ok? || i + k - 1 == n || !last.retry then last.result else Err(last.backoffError.value)
       case Cancelled =>
         && i + k <= n && (k > 0 ==> GoesOn(script(i + k - 1))) && acts == Rounds(script, i, k, guarded)
         && script(i + k).ctxError.Some? && r == Err(script(i + k).ctxError.value)
       case Refused =>
         && i + k <= n && (k > 0 ==> GoesOn(script(i + k - 1))) && script(i + k).ctxError.None? && guarded
         && acts == Rounds(script, i, k, guarded) + [Asked(script(i + k).askAt, false)] && r == Err(CIRCUIT_OPEN)
  }

  lemma FirstRound<T>(script: nat -> Attempt<T>, i: nat, k: nat, guarded: bool)
    requires k > 0
    ensures Rounds(script, i, k, guarded) == Round(script(i), guarded) + Rounds(script, i + 1, k - 1, guarded)
    ensures Rounds(script, i, 1, guarded) == Round(script(i), guarded)
  {
    assert Rounds(script, i + 1, 0, guarded) == [];
  }

  /** One attempt more in front. */
  lemma EndsLater<T>(n: nat, script: nat -> Attempt<T>, i: nat, guarded: bool, k: nat, end: Ending, r: Result<T>, acts: seq<Act>)
    requires EndsLike(n, script, i + 1, guarded, k, end, r, acts) && i < n && script(i).ctxError.None? && GoesOn(script(i))
    ensures EndsLike(n, script, i, guarded, k + 1, end, r, Round(script(i), guarded) + acts)
  {
    FirstRound(script, i, k + 1, guarded);
    assert i + (k + 1) == (i + 1) + k;
    var round, rest := Round(script(i), guarded), Rounds(script, i + 1, k, guarded);
    hide Round, Rounds, GoesOn;
    if end.Refused? {
      var refused := [Asked(script(i + 1 + k).askAt, false)];
      assert round + (rest + refused) == (round + rest) + refused;
    }
  }

  lemma SettleIsRound<T>(g: Option<Guard>, a: Attempt<T>)
    requires Ask(g, a.askAt).2
    ensures Ask(g, a.askAt).1 + Settle(Ask(g, a.askAt).0, a).1 == Round(a, g.Some?)
    ensures Settle(Ask(g, a.askAt).0, a).0.Some? == g.Some?
  {
  }

  /** How Do ends, from attempt i on. */
  lemma {:induction false} DoEnds<T>(n: nat, script: nat -> Attempt<T>, i: nat, g: Option<Guard>) returns (k: nat, end: Ending)
    requires 1 <= i <= n
    ensures EndsLike(n, script, i, g.Some?, k, end, DoFrom(n, script, i, g).0, DoFrom(n, script, i, g).2)
    decreases n - i
  {
    var a := script(i);
    var (r, _, acts) := DoFrom(n, script, i, g);
    FirstRound(script, i, 1, g.Some?);
    if a.ctxError.Some? {
      k, end := 0, Cancelled;
      assert Rounds(script, i, 0, g.Some?) == [];
    } else if !Ask(g, a.askAt).2 {
      k, end := 0, Refused;
      assert Rounds(script, i, 0, g.Some?) == [];
      assert [] + [Asked(a.askAt, false)] == [Asked(a.askAt, false)];
    } else {
      SettleIsRound(g, a);
      if i < n && GoesOn(a) {
        var g2 := Settle(Ask(g, a.askAt).0, a).0;
        k, end := DoEnds(n, script, i + 1, g2);
        EndsLater(n, script, i, g.Some?, k, end, DoFrom(n, script, i + 1, g2).0, DoFrom(n, script, i + 1, g2).2);
        k := k + 1;
      } else {
        k, end := 1, AfterCall;
      }
    }
    hide EndsLike, Rounds, Round, Ask, Settle;
  }

  // ------------------------------------------------------------------ counting calls

  function CountCalls(acts: seq<Act>): nat {
    if acts == [] then 0 else (if acts[0].Called? then 1 else 0) + CountCalls(acts[1..])
  }

  /** Permit discipline: every granted permit is used for one call and finished once, before
      the next request or the return; success and refusal end the run. */
  predicate Disciplined(acts: seq<Act>) {
    || acts == []
    || (|acts| == 1 && acts[0].Asked? && !acts[0].granted)
    || (|acts| >= 3 && acts[0].Asked? && acts[0].granted && acts[1].Called? && acts[2].Finished?
        && (if acts[2].success then |acts| == 3 else Disciplined(acts[3..])))
  }

  lemma CountAppend(a: seq<Act>, b: seq<Act>)
    requires |a| <= 3
    ensures CountCalls(a + b) == CountCalls(a) + CountCalls(b)
  {
    if a == [] {
      assert a + b == b;
    } else {
      assert (a + b)[1..] == a[1..] + b;
      CountAppend(a[1..], b);
    }
  }

  lemma {:induction false} CallsOfRounds<T>(script: nat -> Attempt<T>, i: nat, k: nat, guarded: bool)
    ensures CountCalls(Rounds(script, i, k, guarded)) == k
    decreases k
  {
    if k > 0 {
      var round := Round(script(i), guarded);
      CallsOfRounds(script, i + 1, k - 1, guarded);
      CountAppend(round, Rounds(script, i + 1, k - 1, guarded));
      CallsOfRound(script(i), guarded);
      hide Round;
    }
  }

  lemma CallsOfRound<T>(a: Attempt<T>, guarded: bool)
    ensures CountCalls(Round(a, guarded)) == 1 && |Round(a, guarded)| <= 3
  {
    var round := Round(a, guarded);
    assert round[1..] == if guarded then [Called(a.others), Finished(a.doneAt, a.result.Ok?)] else [];
    if guarded {
      assert round[1..][1..] == [Finished(a.doneAt, a.result.Ok?)];
      assert round[1..][1..][1..] == [];
      assert CountCalls(round[1..][1..]) == 0;
    }
  }

  lemma {:induction false} CallsBeforeRefusal(acts: seq<Act>, at: int)
    ensures CountCalls(acts + [Asked(at, false)]) == CountCalls(acts)
  {
    if acts == [] {
      assert acts + [Asked(at, false)] == [Asked(at, false)] && [Asked(at, false)][1..] == [];
    } else {
      assert (acts + [Asked(at, false)])[1..] == acts[1..] + [Asked(at, false)];
      CallsBeforeRefusal(acts[1..], at);
    }
  }

  // ------------------------------------------------------------------ the claims

  /** MAIN RESULT: what Do does, attempt by attempt. The number of calls k is that of its acts
      and at most max(1, attempts); all calls but the last failed, were to be retried, and
      their backoff ended well; and the result is that of the last call, or of the context
      or the refusal that kept the next one from being made. */
  lemma DoExactly<T>(attempts: int, script: nat -> Attempt<T>, g: Option<Guard>) returns (end: Ending)
    ensures var n := if attempts > 1 then attempts else 1;
            var (r, _, acts) := DoFrom(AttemptsOf(attempts), script, 1, g);
            EndsLike(n, script, 1, g.Some?, CountCalls(acts), end, r, acts)
  {
    var k;
    k, end := DoEnds(AttemptsOf(attempts), script, 1, g);
    CallsOfRounds(script, 1, k, g.Some?);
    if end.Refused? { CallsBeforeRefusal(Rounds(script, 1, k, g.Some?), script(1 + k).askAt); }
    hide DoFrom, Rounds, CountCalls, GoesOn;
  }

  /** MAIN RESULT: Do calls the operation at most max(1, attempts) times; without a breaker and
      with an operation that always fails and is to be retried, exactly so often. */
  lemma CallsBounded<T>(attempts: int, script: nat -> Attempt<T>, g: Option<Guard>)
    ensures var n := if attempts > 1 then attempts else 1;
            var calls := CountCalls(DoFrom(AttemptsOf(attempts), script, 1, g).2);
            && calls <= n
            && (g.None? && (forall j: nat :: 1 <= j <= n ==> script(j).ctxError.None? && GoesOn(script(j))) ==> calls == n)
  {
    var end := DoExactly(attempts, script, g);
    hide DoFrom, Rounds, CountCalls, GoesOn;
  }

  /** MAIN RESULT: the breaker after Do is what its acts make of it, in order: every request an
      Acquire at its moment, the other callers' steps during the call, and every finish a
      record of the success it carries; and every request was answered as the breaker then
      answers it. */
  lemma {:induction false} BreakerIsReplayed<T>(n: nat, script: nat -> Attempt<T>, i: nat, g: Option<Guard>)
    requires 1 <= i <= n && g.Some?
    ensures var (_, g1, acts) := DoFrom(n, script, i, g);
            && g1 == Some(Guard(g.value.cfg, Replayed(g.value.cfg, g.value.state, acts)))
            && Answered(g.value.cfg, g.value.state, acts)
    decreases n - i
  {
    var a := script(i);
    var c, s := g.value.cfg, g.value.state;
    if a.ctxError.None? {
      OneActReplayed(c, s, Asked(a.askAt, AcquireStep(c, s, a.askAt).1));
      if Ask(g, a.askAt).2 {
        RoundReplayed(c, s, a);
        SettleIsRound(g, a);
        if i < n && GoesOn(a) {
          var g2 := Settle(Ask(g, a.askAt).0, a).0;
          BreakerIsReplayed(n, script, i + 1, g2);
          ReplayAppend(c, s, Round(a, true), DoFrom(n, script, i + 1, g2).2);
        }
      }
    }
    hide Round, Replayed, Answered, AcquireStep, RecordStep, OthersStep;
  }

  lemma RoundReplayed<T>(c: Config, s: State, a: Attempt<T>)
    requires AcquireStep(c, s, a.askAt).1
    ensures var t := OthersStep(c, AcquireStep(c, s, a.askAt).0, a.others);
            && Replayed(c, s, Round(a, true)) == RecordStep(c, t, a.doneAt, a.result.Ok?)
            && Answered(c, s, Round(a, true))
  {
    var asked, called, finished := Asked(a.askAt, true), Called(a.others), Finished(a.doneAt, a.result.Ok?);
    hide AcquireStep, OthersStep, RecordStep;
    var s1 := Applied(c, s, asked);
    OneActReplayed(c, s, asked);
    OneActReplayed(c, s1, called);
    OneActReplayed(c, Applied(c, s1, called), finished);
    ReplayAppend(c, s1, [called], [finished]);
    ReplayAppend(c, s, [asked], [called] + [finished]);
    assert Round(a, true) == [asked] + ([called] + [finished]);
  }

  /** The last act finishes a success. */
  predicate EndsWell(acts: seq<Act>) {
    acts != [] && acts[|acts| - 1].Finished? && acts[|acts| - 1].success
  }

  lemma RoundThen<T>(a: Attempt<T>, rest: seq<Act>)
    requires Disciplined(rest) && (a.result.Ok? ==> rest == [])
    ensures Disciplined(Round(a, true) + rest)
    ensures EndsWell(Round(a, true) + rest) <==> if rest == [] then a.result.Ok? else EndsWell(rest)
  {
    assert (Round(a, true) + rest)[3..] == rest;
  }

  lemma NoCall(at: int)
    ensures Disciplined([]) && !EndsWell([])
    ensures Disciplined([Asked(at, false)]) && !EndsWell([Asked(at, false)])
  {
  }

  /** MAIN RESULT: with a breaker, every permit acquired is finished exactly once, before
      retrying or returning. */
  lemma {:induction false} PermitsFinished<T>(n: nat, script: nat -> Attempt<T>, i: nat, g: Option<Guard>)
    requires 1 <= i <= n && g.Some?
    ensures Disciplined(DoFrom(n, script, i, g).2)
    ensures DoFrom(n, script, i, g).0.Ok? <==> EndsWell(DoFrom(n, script, i, g).2)
    decreases n - i
  {
    hide Disciplined, EndsWell, Round, Settle;
    var a := script(i);
    NoCall(a.askAt);
    if a.ctxError.None? && Ask(g, a.askAt).2 {
      SettleIsRound(g, a);
      if i < n && GoesOn(a) {
        var g2 := Settle(Ask(g, a.askAt).0, a).0;
        var rest := DoFrom(n, script, i + 1, g2).2;
        PermitsFinished(n, script, i + 1, g2);
        RoundThen(a, rest);
      } else {
        RoundThen(a, []);
        assert Round(a, true) + [] == Round(a, true);
      }
    }
  }
}
