/** The counters of one breaker generation: five uint32 fields that wrap around. */
module Counters {

  const WORD: nat := 0x1_0000_0000

  type Uint32 = n: nat | n < 0x1_0000_0000

  /** The increment of a uint32 field. */
  function Bump(n: Uint32): Uint32 {
    if n + 1 == WORD then 0 else n + 1
  }

  /** The uint32 that a field holds after `n` increments from zero. */
  function Low32(n: nat): Uint32 {
    if n < WORD then n else Low32(n - WORD)
  }

  lemma {:induction false} Low32Bump(n: nat)
    ensures Bump(Low32(n)) == Low32(n + 1)
  {
    if n >= WORD {
      Low32Bump(n - WORD);
    }
  }

  lemma {:induction false} Low32IsRemainder(n: nat)
    ensures Low32(n) == n % WORD
  {
    if n >= WORD {
      Low32IsRemainder(n - WORD);
    }
  }

  lemma {:induction false} Low32Sum(a: nat, b: nat, c: nat)
    ensures Low32(Low32(a) + Low32(b) + c) == Low32(a + b + c)
  {
    if a >= WORD {
      Low32Sum(a - WORD, b, c);
    } else if b >= WORD {
      Low32Sum(a, b - WORD, c);
    }
  }

  datatype Counts = Counts(
    requests: Uint32,
    totalSuccesses: Uint32,
    totalFailures: Uint32,
    consecutiveSuccesses: Uint32,
    consecutiveFailures: Uint32)
  {
    function OnRequest(): Counts {
      this.(requests := Bump(requests))
    }

    function OnSuccess(): Counts {
      this.(totalSuccesses := Bump(totalSuccesses),
            consecutiveSuccesses := Bump(consecutiveSuccesses),
            consecutiveFailures := 0)
    }

    function OnFailure(): Counts {
      this.(totalFailures := Bump(totalFailures),
            consecutiveFailures := Bump(consecutiveFailures),
            consecutiveSuccesses := 0)
    }
  }

  const CLEARED := Counts(0, 0, 0, 0, 0)

  /** The counters as the breaker holds them: fields updated in place. */
  class Counter {
    var requests: Uint32
    var totalSuccesses: Uint32
    var totalFailures: Uint32
    var consecutiveSuccesses: Uint32
    var consecutiveFailures: Uint32

    /** A copy of the fields, as handed to the trip rule. */
    function View(): Counts
      reads this
    {
      Counts(requests, totalSuccesses, totalFailures, consecutiveSuccesses, consecutiveFailures)
    }

    constructor ()
      ensures View() == CLEARED
    {
      requests, totalSuccesses, totalFailures := 0, 0, 0;
      consecutiveSuccesses, consecutiveFailures := 0, 0;
    }

    method OnRequest()
      modifies this
      ensures View() == old(View()).OnRequest()
    {
      requests := Bump(requests);
    }

    method OnSuccess()
      modifies this
      ensures View() == old(View()).OnSuccess()
    {
      totalSuccesses := Bump(totalSuccesses);
      consecutiveSuccesses := Bump(consecutiveSuccesses);
      consecutiveFailures := 0;
    }

    method OnFailure()
      modifies this
      ensures View() == old(View()).OnFailure()
    {
      totalFailures := Bump(totalFailures);
      consecutiveFailures := Bump(consecutiveFailures);
      consecutiveSuccesses := 0;
    }

    method Clear()
      modifies this
      ensures View() == CLEARED
    {
      requests, totalSuccesses, totalFailures := 0, 0, 0;
      consecutiveSuccesses, consecutiveFailures := 0, 0;
    }
  }
}

/** The circuit breaker: its steps as functions on values, and the mutable object that takes them. */
module Breaker {
  import opened Counters
  import opened Wrappers

  datatype State = Closed | HalfOpen | Open

  /** `Never` is the zero time of the expiry field. */
  datatype Expiry = Never | At(when: int)
  {
    /** expiry.Before(now); the zero time is before every clock reading. */
    predicate Before(now: int) {
      Never? || when < now
    }
  }

  /** What the caller asks for; zero or negative numbers and a missing rule mean "use the default". */
  datatype Settings = Settings(maxRequests: Uint32, interval: int, timeout: int,
                               readyToTrip: Option<Counts -> bool>)

  datatype Config = Config(maxRequests: Uint32, interval: int, timeout: int,
                           readyToTrip: Counts -> bool)

  /** Durations are in nanoseconds. */
  const DEFAULT_INTERVAL: int := 0
  const DEFAULT_TIMEOUT: int := 10_000_000_000
  const DEFAULT_TRIP: nat := 5

  predicate DefaultReadyToTrip(c: Counts) {
    c.consecutiveFailures >= DEFAULT_TRIP
  }

  ghost predicate ValidConfig(cfg: Config) {
    cfg.maxRequests >= 1 && cfg.interval >= 0 && cfg.timeout > 0
  }

  /** The defaulting done by NewCircuitBreaker. */
  function Configure(st: Settings): (cfg: Config)
    ensures ValidConfig(cfg)
    // Settings that make sense are kept; the others give way to the defaults.
    ensures cfg.maxRequests == st.maxRequests || (st.maxRequests == 0 && cfg.maxRequests == 1)
    ensures cfg.interval == st.interval || (st.interval < 0 && cfg.interval == 0)
    ensures cfg.timeout == st.timeout || (st.timeout <= 0 && cfg.timeout == 10_000_000_000)
    ensures st.readyToTrip.Some? ==> cfg.readyToTrip == st.readyToTrip.value
    ensures st.readyToTrip.None? ==> forall c :: cfg.readyToTrip(c) == (c.consecutiveFailures >= 5)
  {
    Config(if st.maxRequests == 0 then 1 else st.maxRequests,
           if st.interval <= 0 then DEFAULT_INTERVAL else st.interval,
           if st.timeout <= 0 then DEFAULT_TIMEOUT else st.timeout,
           if st.readyToTrip.None? then ((c: Counts) => DefaultReadyToTrip(c)) else st.readyToTrip.value)
  }

  datatype Machine = Machine(state: State, generation: nat, counts: Counts, expiry: Expiry)

  function NewGeneration(cfg: Config, m: Machine, now: int): Machine {
    m.(generation := m.generation + 1,
       counts := CLEARED,
       expiry := match m.state
                 case Closed => if cfg.interval == 0 then Never else At(now + cfg.interval)
                 case Open => At(now + cfg.timeout)
                 case HalfOpen => Never)
  }

  function SetState(cfg: Config, m: Machine, to: State, now: int): Machine {
    if m.state == to then m else NewGeneration(cfg, m.(state := to), now)
  }

  /** The clock-driven transitions, taken lazily at the start of every call. */
  function Current(cfg: Config, m: Machine, now: int): Machine {
    match m.state
    case Closed => if m.expiry != Never && m.expiry.Before(now) then NewGeneration(cfg, m, now) else m
    case Open => if m.expiry.Before(now) then SetState(cfg, m, HalfOpen, now) else m
    case HalfOpen => m
  }

  datatype Verdict = Admitted(generation: nat) | RejectedOpen | RejectedTooMany

  /** The decision on a machine whose clock-driven transitions are already taken. */
  function Decide(cfg: Config, m: Machine): Verdict {
    if m.state == Open then RejectedOpen
    else if m.state == HalfOpen && m.counts.requests >= cfg.maxRequests then RejectedTooMany
    else Admitted(m.generation)
  }

  function OnSuccess(cfg: Config, m: Machine, now: int): Machine {
    match m.state
    case Closed => m.(counts := m.counts.OnSuccess())
    case HalfOpen =>
      var c := m.counts.OnSuccess();
      if c.consecutiveSuccesses >= cfg.maxRequests then SetState(cfg, m.(counts := c), Closed, now)
      else m.(counts := c)
    case Open => m
  }

  function OnFailure(cfg: Config, m: Machine, now: int): Machine {
    match m.state
    case Closed =>
      var c := m.counts.OnFailure();
      if cfg.readyToTrip(c) then SetState(cfg, m.(counts := c), Open, now) else m.(counts := c)
    case HalfOpen => SetState(cfg, m, Open, now)
    case Open => m
  }

  /** The atomic steps: an admission request, a report, and a read of the state. */
  datatype Event =
    | Admit(now: int)
    | Report(now: int, generation: nat, success: bool)
    | Query(now: int)

  function Before(cfg: Config, m: Machine, now: int): (Machine, Verdict) {
    var c := Current(cfg, m, now);
    var v := Decide(cfg, c);
    (if v.Admitted? then c.(counts := c.counts.OnRequest()) else c, v)
  }

  function After(cfg: Config, m: Machine, now: int, before: nat, success: bool): Machine {
    var c := Current(cfg, m, now);
    if c.generation != before then c
    else if success then OnSuccess(cfg, c, now)
    else OnFailure(cfg, c, now)
  }

  function MachineStep(cfg: Config, m: Machine, e: Event): Machine {
    match e
    case Admit(now) => Before(cfg, m, now).0
    case Report(now, g, ok) => After(cfg, m, now, g, ok)
    case Query(now) => Current(cfg, m, now)
  }

  function MachineRun(cfg: Config, m: Machine, es: seq<Event>): Machine
    decreases |es|
  {
    if es == [] then m else MachineRun(cfg, MachineStep(cfg, m, es[0]), es[1..])
  }

  /** The answers given to the admission requests of a run, in order. */
  function Verdicts(cfg: Config, m: Machine, es: seq<Event>): seq<Verdict>
    decreases |es|
  {
    if es == [] then []
    else (if es[0].Admit? then [Before(cfg, m, es[0].now).1] else [])
         + Verdicts(cfg, MachineStep(cfg, m, es[0]), es[1..])
  }

  lemma {:induction false} MachineRunConcat(cfg: Config, m: Machine, a: seq<Event>, b: seq<Event>)
    ensures MachineRun(cfg, m, a + b) == MachineRun(cfg, MachineRun(cfg, m, a), b)
    decreases |a|
  {
    if a == [] {
      assert a + b == b;
    } else {
      assert (a + b)[1..] == a[1..] + b;
      MachineRunConcat(cfg, MachineStep(cfg, m, a[0]), a[1..], b);
    }
  }

  /** The machine a constructor call at time `now` builds. */
  function Start(cfg: Config, now: int): Machine {
    NewGeneration(cfg, Machine(Closed, 0, CLEARED, Never), now)
  }

  /** How a callback ends. */
  datatype Outcome<T> = Returned(value: T) | Panicked

  type Err = Option<string>

  const ERR_OPEN_STATE: Err := Some("circuit breaker is open")
  const ERR_TOO_MANY: Err := Some("too many requests")

  class CircuitBreaker {
    const cfg: Config
    const counts: Counter
    var state: State
    var generation: nat
    var expiry: Expiry

    ghost function Value(): Machine
      reads this, counts
    {
      Machine(state, generation, counts.View(), expiry)
    }

    constructor (st: Settings, now: int)
      ensures cfg == Configure(st) && ValidConfig(cfg)
      ensures fresh(counts)
      ensures Value() == Start(cfg, now)
    {
      cfg := Configure(st);
      counts := new Counter();
      state, generation, expiry := Closed, 0, Never;
      new;
      ToNewGeneration(now);
    }

    method ToNewGeneration(now: int)
      modifies this, counts
      ensures Value() == NewGeneration(cfg, old(Value()), now)
    {
      generation := generation + 1;
      counts.Clear();
      match state {
        case Closed =>
          if cfg.interval == 0 {
            expiry := Never;
          } else {
            expiry := At(now + cfg.interval);
          }
        case Open => expiry := At(now + cfg.timeout);
        case HalfOpen => expiry := Never;
      }
    }

    method ChangeState(to: State, now: int)
      modifies this, counts
      ensures Value() == SetState(cfg, old(Value()), to, now)
    {
      if state == to {
        return;
      }
      state := to;
      ToNewGeneration(now);
    }

    method CurrentState(now: int) returns (s: State, g: nat)
      modifies this, counts
      ensures Value() == Current(cfg, old(Value()), now)
      ensures s == state && g == generation
    {
      match state {
        case Closed =>
          if expiry != Never && expiry.Before(now) {
            ToNewGeneration(now);
          }
        case Open =>
          if expiry.Before(now) {
            ChangeState(HalfOpen, now);
          }
        case HalfOpen =>
      }
      s, g := state, generation;
    }

    method BeforeRequest(now: int) returns (verdict: Verdict)
      modifies this, counts
      ensures Value() == MachineStep(cfg, old(Value()), Admit(now))
      ensures verdict == Before(cfg, old(Value()), now).1
    {
      var s, g := CurrentState(now);
      if s == Open {
        return RejectedOpen;
      } else if s == HalfOpen && counts.requests >= cfg.maxRequests {
        return RejectedTooMany;
      }
      counts.OnRequest();
      return Admitted(g);
    }

    method AfterRequest(now: int, before: nat, success: bool)
      modifies this, counts
      ensures Value() == MachineStep(cfg, old(Value()), Report(now, before, success))
    {
      var s, g := CurrentState(now);
      if g != before {
        return;
      }
      if success {
        match s {
          case Closed => counts.OnSuccess();
          case HalfOpen =>
            counts.OnSuccess();
            if counts.consecutiveSuccesses >= cfg.maxRequests {
              ChangeState(Closed, now);
            }
          case Open =>
        }
      } else {
        match s {
          case Closed =>
            counts.OnFailure();
            if cfg.readyToTrip(counts.View()) {
              ChangeState(Open, now);
            }
          case HalfOpen => ChangeState(Open, now);
          case Open =>
        }
      }
    }

    /** Steps that other callers take while a request is being served. */
    method Interleave(others: seq<Event>)
      modifies this, counts
      ensures Value() == MachineRun(cfg, old(Value()), others)
    {
      ghost var start := Value();
      for i := 0 to |others|
        invariant MachineRun(cfg, start, others) == MachineRun(cfg, Value(), others[i..])
      {
        match others[i] {
          case Admit(now) => var _ := BeforeRequest(now);
          case Report(now, g, ok) => AfterRequest(now, g, ok);
          case Query(now) => var _, _ := CurrentState(now);
        }
        assert others[i..][1..] == others[i + 1..];
      }
    }

    /** Execute. `t0` and `t1` are the clock readings of the two atomic steps, `others` what other
        callers do in between; `trace` is everything that happened to the breaker. */
    method Execute(req: Outcome<Err>, isSuccessful: Err -> Outcome<bool>,
                   fallback: Option<Err -> Outcome<Err>>,
                   t0: int, others: seq<Event>, t1: int)
      returns (result: Outcome<Err>, trace: seq<Event>)
      modifies this, counts
      ensures Value() == MachineRun(cfg, old(Value()), trace)
      // A call succeeds if the request, the check and any fallback return, and the check says so.
      ensures var success := req.Returned? && isSuccessful(req.value) == Returned(true);
              match Before(cfg, old(Value()), t0).1
              // An admitted call reports once, under the generation that admitted it.
              case Admitted(g) =>
                && trace == [Admit(t0)] + others + [Report(t1, g, success)]
                && (result.Panicked? ==> !success)
                && (success ==> result == req)
                && (req.Panicked? || isSuccessful(req.value).Panicked? ==> result.Panicked?)
                && (req.Returned? && isSuccessful(req.value) == Returned(false) ==>
                      result == if fallback.Some? then fallback.value(req.value) else req)
              // A rejected call never reports; only the open state consults the fallback.
              case RejectedOpen =>
                && trace == [Admit(t0)]
                && (fallback.None? ==> result == Returned(Some("circuit breaker is open")))
                && (fallback.Some? ==>
                      result == match fallback.value(Some("circuit breaker is open"))
                                case Panicked => Panicked
                                case Returned(e) => Returned(if e.None? then None else Some("circuit breaker is open")))
              case RejectedTooMany =>
                trace == [Admit(t0)] && result == Returned(Some("too many requests"))
    {
      ghost var start := Value();
      var verdict := BeforeRequest(t0);
      trace := [Admit(t0)];
      assert MachineRun(cfg, start, trace) == Value();
      if verdict.RejectedOpen? {
        if fallback.Some? {
          match fallback.value(ERR_OPEN_STATE) {
            case Panicked => return Panicked, trace;
            case Returned(e) =>
              if e.None? {
                return Returned(None), trace;
              }
          }
        }
        return Returned(ERR_OPEN_STATE), trace;
      } else if verdict.RejectedTooMany? {
        return Returned(ERR_TOO_MANY), trace;
      }
      Interleave(others);
      MachineRunConcat(cfg, start, trace, others);
      trace := trace + others;
      ghost var served := Value();
      var successful := false;
      result := req;
      if req.Returned? {
        var check := isSuccessful(req.value);
        if check.Panicked? {
          result := Panicked;
        } else {
          successful := check.value;
          if !successful && fallback.Some? {
            result := fallback.value(req.value);
          }
        }
      }
      if result.Panicked? {
        // The deferred function recovers from a panic of any of the three, reports a failure and panics again.
        AfterRequest(t1, verdict.generation, false);
      } else {
        AfterRequest(t1, verdict.generation, successful);
      }
      var report := Report(t1, verdict.generation, successful);
      assert MachineRun(cfg, served, [report]) == Value();
      MachineRunConcat(cfg, start, trace, [report]);
      trace := trace + [report];
    }
  }
}
