/** The circuit breaker (internal/resilience/breaker.go). Clock readings are passed in: every
    locked section reads the clock once. Times and durations are integers. */
module CircuitBreaker {
  import opened Wrappers

  datatype RawConfig = RawConfig(
    dependency: string, rollingWindow: int, minimumRequests: int, failureThreshold: real,
    openDuration: int, halfOpenProbes: int)

  predicate Acceptable(c: RawConfig) {
    && c.dependency != ""
    && c.rollingWindow > 0 && c.minimumRequests > 0 && c.openDuration > 0 && c.halfOpenProbes > 0
    && 0.0 < c.failureThreshold <= 1.0
  }

  type Config = c: RawConfig | Acceptable(c) witness RawConfig("d", 1, 1, 1.0, 1, 1)

  datatype Mode = Closed | Open | HalfOpen

  datatype Outcome = Outcome(at: int, success: bool)

  datatype State = State(mode: Mode, openedAt: int, outcomes: seq<Outcome>, inFlight: int, successes: int)

  const INITIAL := State(Closed, 0, [], 0, 0)

  // ------------------------------------------------------------- step functions

  /** The new state and whether a permit is granted. */
  function AcquireStep(c: Config, s: State, now: int): (State, bool) {
    if s.mode.Open? && now - s.openedAt < c.openDuration then (s, false) else
    var t := if s.mode.Open? then s.(mode := HalfOpen, inFlight := 0, successes := 0) else s;
    if t.mode.HalfOpen? then
      if t.inFlight >= c.halfOpenProbes then (t, false) else (t.(inFlight := t.inFlight + 1), true)
    else (t, true)
  }

  function Opened(s: State, now: int): State {
    s.(mode := Open, openedAt := now, inFlight := 0, successes := 0)
  }

  /** Drops the leading outcomes older than the cutoff. */
  function DropStale(outcomes: seq<Outcome>, cutoff: int): seq<Outcome> {
    if outcomes != [] && outcomes[0].at < cutoff then DropStale(outcomes[1..], cutoff) else outcomes
  }

  function Failures(outcomes: seq<Outcome>): nat {
    if outcomes == [] then 0 else
    Failures(outcomes[..|outcomes| - 1]) + (if outcomes[|outcomes| - 1].success then 0 else 1)
  }

  predicate Trips(c: Config, outcomes: seq<Outcome>) {
    |outcomes| >= c.minimumRequests && Failures(outcomes) as real / |outcomes| as real >= c.failureThreshold
  }

  function RecordStep(c: Config, s: State, now: int, success: bool): State {
    match s.mode
    case HalfOpen =>
      var t := if s.inFlight > 0 then s.(inFlight := s.inFlight - 1) else s;
      if !success then Opened(t, now)
      else if t.successes + 1 >= c.halfOpenProbes then t.(mode := Closed, outcomes := [], successes := 0)
      else t.(successes := t.successes + 1)
    case Open => s
    case Closed =>
      var t := s.(outcomes := DropStale(s.outcomes + [Outcome(now, success)], now - c.rollingWindow));
      if Trips(c, t.outcomes) then Opened(t, now) else t
  }

  // ------------------------------------------------------------------ the objects

  class Breaker {
    const cfg: Config
    var mode: Mode
    var openedAt: int
    var outcomes: seq<Outcome>
    var halfOpenInFlight: int
    var halfOpenSuccess: int

    function View(): State
      reads this
    {
      State(mode, openedAt, outcomes, halfOpenInFlight, halfOpenSuccess)
    }

    constructor (cfg: Config)
      ensures this.cfg == cfg && View() == INITIAL
    {
      this.cfg := cfg;
      mode, openedAt, outcomes, halfOpenInFlight, halfOpenSuccess := Closed, 0, [], 0, 0;
    }

    /** A null permit is a refusal. */
    method Acquire(now: int) returns (permit: Permit?)
      modifies this
      ensures (View(), permit != null) == AcquireStep(cfg, old(View()), now)
      ensures permit != null ==> fresh(permit) && permit.breaker == this && !permit.used
    {
      if mode == Open {
        if now - openedAt < cfg.openDuration { return null; }
        mode := HalfOpen;
        halfOpenInFlight := 0;
        halfOpenSuccess := 0;
      }
      if mode == HalfOpen {
        if halfOpenInFlight >= cfg.halfOpenProbes { return null; }
        halfOpenInFlight := halfOpenInFlight + 1;
      }
      permit := new Permit(this);
    }

    /** The state reported is the one an Acquire at this moment would act in: it is Open
        exactly if that Acquire would find the breaker open and be refused for it. */
    method StateNow(now: int) returns (m: Mode)
      ensures m == AcquireStep(cfg, View(), now).0.mode
      ensures m.Open? <==> mode.Open? && !AcquireStep(cfg, View(), now).1
    {
      if mode == Open && now - openedAt >= cfg.openDuration { return HalfOpen; }
      return mode;
    }

    method Record(now: int, success: bool)
      modifies this
      ensures View() == RecordStep(cfg, old(View()), now, success)
    {
      if mode == HalfOpen {
        if halfOpenInFlight > 0 { halfOpenInFlight := halfOpenInFlight - 1; }
        if !success {
          Trip(now);
          return;
        }
        halfOpenSuccess := halfOpenSuccess + 1;
        if halfOpenSuccess >= cfg.halfOpenProbes {
          mode := Closed;
          outcomes := [];
          halfOpenSuccess := 0;
        }
        return;
      }
      if mode != Closed { return; }
      outcomes := outcomes + [Outcome(now, success)];
      var cutoff := now - cfg.rollingWindow;
      var first := 0;
      while first < |outcomes| && outcomes[first].at < cutoff
        invariant 0 <= first <= |outcomes|
        invariant DropStale(outcomes[first..], cutoff) == DropStale(outcomes, cutoff)
      {
        assert outcomes[first..][1..] == outcomes[first + 1..];
        first := first + 1;
      }
      outcomes := outcomes[first..];
      assert outcomes == DropStale(old(outcomes) + [Outcome(now, success)], cutoff);
      if |outcomes| < cfg.minimumRequests { return; }
      var failures := 0;
      for i := 0 to |outcomes|
        invariant failures == Failures(outcomes[..i])
      {
        assert outcomes[..i + 1][..i] == outcomes[..i];
        if !outcomes[i].success { failures := failures + 1; }
      }
      assert outcomes[..|outcomes|] == outcomes;
      if failures as real / |outcomes| as real >= cfg.failureThreshold { Trip(now); }
    }

    method Trip(now: int)
      modifies this
      ensures View() == Opened(old(View()), now)
    {
      mode := Open;
      openedAt := now;
      halfOpenInFlight := 0;
      halfOpenSuccess := 0;
    }
  }

  class Permit {
    const breaker: Breaker
    var used: bool

    constructor (breaker: Breaker)
      ensures this.breaker == breaker && !used
    {
      this.breaker, used := breaker, false;
    }

    /** Only the first call counts. */
    method Done(now: int, success: bool)
      modifies this, breaker
      ensures used
      ensures breaker.View() == if old(used) then old(breaker.View()) else RecordStep(breaker.cfg, old(breaker.View()), now, success)
    {
      if !used {
        used := true;
        breaker.Record(now, success);
      }
    }
  }

  method NewCircuitBreaker(cfg: RawConfig) returns (r: Result<Breaker>)
    ensures r.Ok? <==> Acceptable(cfg)
    ensures r.Ok? ==> fresh(r.value) && r.value.cfg == cfg && r.value.View() == INITIAL
  {
    if cfg.dependency == "" { return Err("breaker dependency is required"); }
    if cfg.rollingWindow <= 0 || cfg.minimumRequests <= 0 || cfg.openDuration <= 0 || cfg.halfOpenProbes <= 0 {
      return Err("breaker durations, minimum requests and half-open probes must be positive");
    }
    if cfg.failureThreshold <= 0.0 || cfg.failureThreshold > 1.0 {
      return Err("breaker failure threshold must be in (0,1]");
    }
    var b := new Breaker(cfg);
    return Ok(b);
  }
}
