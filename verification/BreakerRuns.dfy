/** Every interleaved run of one breaker: bookkeeping of tokens, reports and generations, the
    invariant it keeps, and what follows for admissions, trips and recovery. */
module BreakerRuns {
  import opened Counters
  import opened Breaker

  /** The machine with what an observer of the whole run would write down. */
  datatype System = System(
    m: Machine,
    clock: int,
    inflight: multiset<nat>,  // the generations of the admissions not yet reported
    admitted: nat,            // admissions in the current generation
    log: seq<bool>,           // reports accepted in the current generation
    history: seq<State>,      // history[g - 1] is the state throughout generation g
    since: int)               // when the current generation began

  function Init(cfg: Config, now: int): System {
    System(Start(cfg, now), now, multiset{}, 0, [], [Closed], now)
  }

  /** Moves to `m1`, opening a fresh page when that is another generation. */
  function Turn(s: System, m1: Machine, now: int): System {
    if m1.generation == s.m.generation then s.(m := m1)
    else s.(m := m1, admitted := 0, log := [], history := s.history + [m1.state], since := now)
  }

  function Settle(cfg: Config, s: System, now: int): System {
    Turn(s, Current(cfg, s.m, now), now).(clock := now)
  }

  function Step(cfg: Config, s: System, e: Event): System {
    var t := Settle(cfg, s, e.now);
    match e
    case Query(_) => t
    case Admit(_) =>
      if Decide(cfg, t.m).Admitted? then
        t.(m := t.m.(counts := t.m.counts.OnRequest()),
           inflight := t.inflight + multiset{t.m.generation},
           admitted := t.admitted + 1)
      else t
    case Report(now, g, ok) =>
      var u := t.(inflight := t.inflight - multiset{g});
      if t.m.generation != g then u else Accept(cfg, u, now, ok)
  }

  /** A report of the current generation. */
  function Accept(cfg: Config, s: System, now: int, ok: bool): System {
    var m1 := if ok then OnSuccess(cfg, s.m, now) else OnFailure(cfg, s.m, now);
    if m1.generation == s.m.generation then s.(m := m1, log := s.log + [ok]) else Turn(s, m1, now)
  }

  /** A report whose generation is over by the time it arrives. */
  predicate Stale(cfg: Config, s: System, e: Event) {
    e.Report? && Current(cfg, s.m, e.now).generation != e.generation
  }

  /** The clock never runs backwards, and only an outstanding admission can be reported. */
  predicate Enabled(s: System, e: Event) {
    s.clock <= e.now && (e.Report? ==> e.generation in s.inflight)
  }

  function Run(cfg: Config, s: System, es: seq<Event>): System
    decreases |es|
  {
    if es == [] then s else Run(cfg, Step(cfg, s, es[0]), es[1..])
  }

  predicate ValidRun(cfg: Config, s: System, es: seq<Event>)
    decreases |es|
  {
    es == [] || (Enabled(s, es[0]) && ValidRun(cfg, Step(cfg, s, es[0]), es[1..]))
  }

  /** The bookkeeping never influences the machine. */
  lemma {:induction false} RunFollowsMachine(cfg: Config, s: System, es: seq<Event>)
    ensures Run(cfg, s, es).m == MachineRun(cfg, s.m, es)
    decreases |es|
  {
    if es != [] {
      assert Step(cfg, s, es[0]).m == MachineStep(cfg, s.m, es[0]);
      RunFollowsMachine(cfg, Step(cfg, s, es[0]), es[1..]);
    }
  }

  // ---- what the counters mean ----

  /** How often `b` occurs in a log. */
  function Tally(log: seq<bool>, b: bool): nat {
    if log == [] then 0
    else Tally(log[..|log| - 1], b) + if log[|log| - 1] == b then 1 else 0
  }

  /** The length of the run of `b` that ends a log. */
  function Trailing(log: seq<bool>, b: bool): nat {
    if log == [] || log[|log| - 1] != b then 0 else 1 + Trailing(log[..|log| - 1], b)
  }

  function CountsOf(admitted: nat, log: seq<bool>): Counts {
    Counts(Low32(admitted), Low32(Tally(log, true)), Low32(Tally(log, false)),
           Low32(Trailing(log, true)), Low32(Trailing(log, false)))
  }

  lemma {:induction false} TallyTotal(log: seq<bool>)
    ensures Tally(log, true) + Tally(log, false) == |log|
  {
    if log != [] {
      TallyTotal(log[..|log| - 1]);
    }
  }

  lemma CountsOfReport(admitted: nat, log: seq<bool>, ok: bool)
    ensures var c := CountsOf(admitted, log);
            CountsOf(admitted, log + [ok]) == if ok then c.OnSuccess() else c.OnFailure()
  {
    var l := log + [ok];
    assert l[..|l| - 1] == log;
    Low32Bump(Tally(log, ok));
    Low32Bump(Trailing(log, ok));
  }

  /** A log of successes only. */
  predicate AllTrue(log: seq<bool>) {
    forall i :: 0 <= i < |log| ==> log[i]
  }

  lemma {:induction false} AllTrueCounts(log: seq<bool>)
    requires AllTrue(log)
    ensures Tally(log, true) == Trailing(log, true) == |log|
    ensures Tally(log, false) == Trailing(log, false) == 0
  {
    if log != [] {
      AllTrueCounts(log[..|log| - 1]);
    }
  }

  // ---- the invariant ----

  /** The only ways one generation is followed by the next. */
  predicate Edge(cfg: Config, a: State, b: State) {
    || (a == Closed && b == Open)
    || (a == Open && b == HalfOpen)
    || (a == HalfOpen && b == Open)
    || (a == HalfOpen && b == Closed)
    || (a == Closed && b == Closed && cfg.interval > 0)
  }

  /** Staying in a generation, or opening the next one along an edge; a trip sets its deadline. */
  ghost predicate Moves(cfg: Config, a: Machine, b: Machine, now: int) {
    || (b.generation == a.generation && b.state == a.state)
    || (&& b.generation == a.generation + 1 && Edge(cfg, a.state, b.state)
        && (b.state == Open ==> b.expiry == At(now + cfg.timeout)))
  }

  ghost predicate HistoryOk(cfg: Config, s: System) {
    && |s.history| == s.m.generation >= 1
    && s.history[0] == Closed
    && s.history[s.m.generation - 1] == s.m.state
    && (forall i :: 0 < i < |s.history| ==> Edge(cfg, s.history[i - 1], s.history[i]))
  }

  /** No admission token carries a future generation or one spent open. */
  ghost predicate TokensOk(s: System)
    requires |s.history| == s.m.generation
  {
    forall g :: g in s.inflight ==> 1 <= g <= s.m.generation && s.history[g - 1] != Open
  }

  /** The deadline is the interval or the timeout after the generation began. */
  ghost predicate ExpiryOk(cfg: Config, s: System) {
    s.m.expiry == match s.m.state
                  case Closed => if cfg.interval == 0 then Never else At(s.since + cfg.interval)
                  case Open => At(s.since + cfg.timeout)
                  case HalfOpen => Never
  }

  ghost predicate CountersOk(cfg: Config, s: System) {
    && s.m.counts == CountsOf(s.admitted, s.log)
    && s.admitted == |s.log| + s.inflight[s.m.generation]
    && (s.m.state == HalfOpen ==>
          s.admitted <= cfg.maxRequests && AllTrue(s.log) && |s.log| < cfg.maxRequests)
    && (s.m.state == Open ==> s.admitted == 0)
  }

  ghost predicate Inv(cfg: Config, s: System) {
    HistoryOk(cfg, s) && TokensOk(s) && ExpiryOk(cfg, s) && CountersOk(cfg, s)
  }

  lemma TurnKeepsInv(cfg: Config, s: System, m1: Machine, now: int)
    requires HistoryOk(cfg, s) && TokensOk(s)
    requires m1.generation == s.m.generation + 1 && Edge(cfg, s.m.state, m1.state)
    requires m1.counts == CLEARED && ExpiryOk(cfg, Turn(s, m1, now)) && ValidConfig(cfg)
    ensures Inv(cfg, Turn(s, m1, now))
  {
    var t := Turn(s, m1, now);
    assert t.history[..|s.history|] == s.history;
    assert m1.generation !in s.inflight;
  }

  lemma SettleKeepsInv(cfg: Config, s: System, now: int)
    requires ValidConfig(cfg) && Inv(cfg, s)
    ensures Inv(cfg, Settle(cfg, s, now))
    ensures Settle(cfg, s, now).inflight == s.inflight
    ensures Moves(cfg, s.m, Settle(cfg, s, now).m, now)
  {
    var m1 := Current(cfg, s.m, now);
    if m1.generation != s.m.generation {
      TurnKeepsInv(cfg, s, m1, now);
    }
  }

  lemma AdmitKeepsInv(cfg: Config, s: System, e: Event)
    requires ValidConfig(cfg) && Inv(cfg, s) && e.Admit?
    ensures Inv(cfg, Step(cfg, s, e))
    ensures Step(cfg, s, e).clock == e.now && Moves(cfg, s.m, Step(cfg, s, e).m, e.now)
  {
    hide Current, Turn;
    SettleKeepsInv(cfg, s, e.now);
    var t := Settle(cfg, s, e.now);
    assert t.clock == e.now;
    hide Settle;
    if Decide(cfg, t.m).Admitted? {
      AdmittedKeepsInv(cfg, t);
    }
  }

  /** Counting one more admission of the current generation. */
  lemma AdmittedKeepsInv(cfg: Config, t: System)
    requires Inv(cfg, t) && Decide(cfg, t.m).Admitted?
    ensures Inv(cfg, t.(m := t.m.(counts := t.m.counts.OnRequest()), admitted := t.admitted + 1,
                        inflight := t.inflight + multiset{t.m.generation}))
  {
    Low32Bump(t.admitted);
    hide Tally, Trailing, Edge;
  }

  /** The state between the removal of a current token and the acceptance of its report. */
  ghost predicate Reporting(cfg: Config, s: System) {
    && HistoryOk(cfg, s) && TokensOk(s) && ExpiryOk(cfg, s)
    && s.m.state != Open
    && CountersOk(cfg, s.(inflight := s.inflight + multiset{s.m.generation}))
  }

  lemma AcceptClosed(cfg: Config, s: System, now: int, ok: bool)
    requires ValidConfig(cfg) && Reporting(cfg, s) && s.m.state == Closed
    ensures Inv(cfg, Accept(cfg, s, now, ok))
    ensures Accept(cfg, s, now, ok).m.state == Open <==>
            !ok && cfg.readyToTrip(CountsOf(s.admitted, s.log + [false]))
    ensures Moves(cfg, s.m, Accept(cfg, s, now, ok).m, now)
    ensures Accept(cfg, s, now, ok).m.state == Closed ==> Accept(cfg, s, now, ok).log == s.log + [ok]
  {
    CountsOfReport(s.admitted, s.log, ok);
    if !ok && cfg.readyToTrip(s.m.counts.OnFailure()) {
      TurnKeepsInv(cfg, s, OnFailure(cfg, s.m, now), now);
    }
  }

  lemma AcceptHalfOpen(cfg: Config, s: System, now: int, ok: bool)
    requires ValidConfig(cfg) && Reporting(cfg, s) && s.m.state == HalfOpen
    ensures Inv(cfg, Accept(cfg, s, now, ok))
    ensures Accept(cfg, s, now, ok).m.state ==
            if !ok then Open else if |s.log| + 1 == cfg.maxRequests then Closed else HalfOpen
    ensures Moves(cfg, s.m, Accept(cfg, s, now, ok).m, now)
    ensures Accept(cfg, s, now, ok).m.state == Closed ==> Accept(cfg, s, now, ok).log == []
  {
    hide Tally, Trailing;
    AllTrueCounts(s.log);
    assert s.m.counts.consecutiveSuccesses == |s.log|;
    if !ok {
      TurnKeepsInv(cfg, s, OnFailure(cfg, s.m, now), now);
    } else if |s.log| + 1 == cfg.maxRequests {
      TurnKeepsInv(cfg, s, OnSuccess(cfg, s.m, now), now);
    } else {
      hide CountsOf;
      CountsOfReport(s.admitted, s.log, ok);
      assert s.m.counts.OnSuccess().consecutiveSuccesses == |s.log| + 1;
    }
  }

  /** A report that is not stale finds the breaker unsettled by the clock, in a state that admits. */
  lemma CurrentReport(cfg: Config, s: System, e: Event)
    requires ValidConfig(cfg) && Inv(cfg, s) && e.Report? && Enabled(s, e) && !Stale(cfg, s, e)
    ensures Current(cfg, s.m, e.now) == s.m && Settle(cfg, s, e.now) == s.(clock := e.now)
    ensures s.m.state != Open
    ensures var u := s.(clock := e.now, inflight := s.inflight - multiset{e.generation});
            Reporting(cfg, u) && Step(cfg, s, e) == Accept(cfg, u, e.now, e.success)
  {
    assert e.generation <= s.m.generation;
    var u := s.(clock := e.now, inflight := s.inflight - multiset{e.generation});
    assert u.inflight + multiset{e.generation} == s.inflight;
  }

  /** A stale report only settles the clock. */
  lemma StaleReport(cfg: Config, s: System, e: Event)
    requires ValidConfig(cfg) && Inv(cfg, s) && e.Report? && Enabled(s, e) && Stale(cfg, s, e)
    ensures var t := Settle(cfg, s, e.now);
            Step(cfg, s, e) == t.(inflight := t.inflight - multiset{e.generation})
    ensures Inv(cfg, Step(cfg, s, e)) && Moves(cfg, s.m, Step(cfg, s, e).m, e.now)
  {
    hide CountsOf, Edge, Moves, Inv;
    SettleKeepsInv(cfg, s, e.now);
    var t := Settle(cfg, s, e.now);
    assert t.m.generation != e.generation;
    hide Current, Turn, Settle;
    LateToken(cfg, t, e.generation);
  }

  /** A token of another generation can be taken back without harm. */
  lemma LateToken(cfg: Config, t: System, g: nat)
    requires Inv(cfg, t) && g != t.m.generation
    ensures Inv(cfg, t.(inflight := t.inflight - multiset{g}))
  {
    hide CountsOf, Edge, AllTrue;
  }

  lemma {:induction false} ReportKeepsInv(cfg: Config, s: System, e: Event)
    requires ValidConfig(cfg) && Inv(cfg, s) && e.Report? && Enabled(s, e)
    ensures Inv(cfg, Step(cfg, s, e))
    ensures Step(cfg, s, e).clock == e.now && Moves(cfg, s.m, Step(cfg, s, e).m, e.now)
  {
    if Stale(cfg, s, e) {
      StaleReport(cfg, s, e);
    } else {
      CurrentReport(cfg, s, e);
      var u := s.(clock := e.now, inflight := s.inflight - multiset{e.generation});
      if s.m.state == Closed {
        AcceptClosed(cfg, u, e.now, e.success);
      } else {
        AcceptHalfOpen(cfg, u, e.now, e.success);
      }
    }
  }

  lemma {:induction false} StepKeepsInv(cfg: Config, s: System, e: Event)
    requires ValidConfig(cfg) && Inv(cfg, s) && Enabled(s, e)
    ensures Inv(cfg, Step(cfg, s, e))
    ensures Step(cfg, s, e).clock == e.now && Moves(cfg, s.m, Step(cfg, s, e).m, e.now)
  {
    match e
    case Query(now) => SettleKeepsInv(cfg, s, now);
    case Admit(_) => AdmitKeepsInv(cfg, s, e);
    case Report(_, _, _) => ReportKeepsInv(cfg, s, e);
  }

  lemma {:induction false} RunKeepsInv(cfg: Config, s: System, es: seq<Event>)
    requires ValidConfig(cfg) && Inv(cfg, s) && ValidRun(cfg, s, es)
    ensures Inv(cfg, Run(cfg, s, es))
    decreases |es|
  {
    if es != [] {
      StepKeepsInv(cfg, s, es[0]);
      RunKeepsInv(cfg, Step(cfg, s, es[0]), es[1..]);
    }
  }

  lemma InitInv(cfg: Config, now: int)
    requires ValidConfig(cfg)
    ensures Inv(cfg, Init(cfg, now))
  {
  }

  /** A state that some interleaving of some callers reaches. */
  ghost predicate Reachable(cfg: Config, s: System) {
    exists t0: int, es: seq<Event> ::
      ValidRun(cfg, Init(cfg, t0), es) && s == Run(cfg, Init(cfg, t0), es)
  }

  lemma ReachableInv(cfg: Config, s: System)
    requires ValidConfig(cfg) && Reachable(cfg, s)
    ensures Inv(cfg, s)
  {
    var t0: int, es: seq<Event> :|
      ValidRun(cfg, Init(cfg, t0), es) && s == Run(cfg, Init(cfg, t0), es);
    InitInv(cfg, t0);
    RunKeepsInv(cfg, Init(cfg, t0), es);
  }

  // ---- one call ----

  lemma {:induction false} ValidRunConcat(cfg: Config, s: System, a: seq<Event>, b: seq<Event>)
    requires ValidRun(cfg, s, a) && ValidRun(cfg, Run(cfg, s, a), b)
    ensures ValidRun(cfg, s, a + b) && Run(cfg, s, a + b) == Run(cfg, Run(cfg, s, a), b)
    decreases |a|
  {
    hide Step, Enabled;
    if a == [] {
      assert a + b == b;
    } else {
      assert (a + b)[1..] == a[1..] + b;
      ValidRunConcat(cfg, Step(cfg, s, a[0]), a[1..], b);
    }
  }

  lemma OneEvent(cfg: Config, s: System, e: Event)
    requires Enabled(s, e)
    ensures ValidRun(cfg, s, [e]) && Run(cfg, s, [e]) == Step(cfg, s, e)
  {
    hide Step, Enabled;
    assert [e][1..] == [];
  }

  /** An admission takes a token, a report returns one. */
  lemma Tokens(cfg: Config, s: System, t: int, g: nat, ok: bool)
    ensures Before(cfg, s.m, t).1 == Admitted(g) ==> Step(cfg, s, Admit(t)).inflight == s.inflight + multiset{g}
    ensures Step(cfg, s, Report(t, g, ok)).inflight == s.inflight - multiset{g}
  {
  }

  /** What an admitted call does to the breaker is part of a valid run, whatever valid run of other callers comes in
      between, as long as they leave this call its token: it takes one token of its generation and returns one. */
  lemma CallIsValidRun(cfg: Config, s: System, t0: int, others: seq<Event>, t1: int, ok: bool)
    requires s.clock <= t0 && Before(cfg, s.m, t0).1.Admitted?
    requires var s1 := Step(cfg, s, Admit(t0));
             && ValidRun(cfg, s1, others) && Run(cfg, s1, others).clock <= t1
             && Before(cfg, s.m, t0).1.generation in Run(cfg, s1, others).inflight
    ensures var g := Before(cfg, s.m, t0).1.generation;
            var s1 := Step(cfg, s, Admit(t0));
            var trace := [Admit(t0)] + others + [Report(t1, g, ok)];
            && ValidRun(cfg, s, trace)
            && s1.inflight == s.inflight + multiset{g}
            && Run(cfg, s, trace).inflight == Run(cfg, s1, others).inflight - multiset{g}
  {
    var g := Before(cfg, s.m, t0).1.generation;
    Tokens(cfg, s, t0, g, ok);
    hide Step, Before, Run, ValidRun;
    var s1 := Step(cfg, s, Admit(t0));
    OneEvent(cfg, s, Admit(t0));
    ValidRunConcat(cfg, s, [Admit(t0)], others);
    var s2 := Run(cfg, s1, others);
    OneEvent(cfg, s2, Report(t1, g, ok));
    ValidRunConcat(cfg, s, [Admit(t0)] + others, [Report(t1, g, ok)]);
    Tokens(cfg, s2, t1, g, ok);
  }

  // ---- conservation ----

  /** Requests are successes, failures and admissions still in flight, modulo the counter width; in
      the half-open state, where the number decides admissions, the equation is exact. */
  lemma Conservation(cfg: Config, s: System)
    requires ValidConfig(cfg) && Reachable(cfg, s)
    ensures var c, open := s.m.counts, s.inflight[s.m.generation];
            && c.requests == (c.totalSuccesses + c.totalFailures + open) % WORD
            && (s.m.state == HalfOpen ==>
                  c.requests == c.totalSuccesses + c.totalFailures + open <= cfg.maxRequests)
  {
    hide Reachable;
    ReachableInv(cfg, s);
    TallyTotal(s.log);
    var a, b, c := Tally(s.log, true), Tally(s.log, false), s.inflight[s.m.generation];
    Low32Sum(a, b, c);
    Low32IsRemainder(Low32(a) + Low32(b) + c);
    if s.m.state == HalfOpen {
      AllTrueCounts(s.log);
    }
  }

  // ---- recovery ----

  /** Recovery closes the breaker only on the report that completes maxRequests admitted probes, all
      of them successful, with none left outstanding; and then it always does. */
  lemma {:induction false} ClosesExactlyWhenAllProbesSucceeded(cfg: Config, s: System, e: Event)
    requires ValidConfig(cfg) && Reachable(cfg, s) && Enabled(s, e) && s.m.state == HalfOpen
    ensures var t := Step(cfg, s, e);
            t.m.state == Closed <==>
              && e.Report? && e.generation == s.m.generation && e.success
              && s.admitted == cfg.maxRequests
              && AllTrue(s.log) && |s.log| == cfg.maxRequests - 1
              && s.inflight[s.m.generation] == 1
    ensures var t := Step(cfg, s, e);
            t.m.state == Closed ==>
              t.inflight[s.m.generation] == 0 && t.m.generation == s.m.generation + 1
  {
    ReachableInv(cfg, s);
    match e
    case Query(_) =>
    case Admit(_) =>
    case Report(now, g, ok) =>
      if Stale(cfg, s, e) {
        StaleReport(cfg, s, e);
      } else {
        CurrentReport(cfg, s, e);
        StepKeepsInv(cfg, s, e);
        AcceptHalfOpen(cfg, s.(clock := now, inflight := s.inflight - multiset{g}), now, ok);
      }
  }

  /** A half-open generation admits at most maxRequests, and is never stuck: with no probe outstanding
      the next request is admitted. In general a request is turned away exactly when maxRequests are in. */
  lemma HalfOpenAdmission(cfg: Config, s: System, now: int)
    requires ValidConfig(cfg) && Reachable(cfg, s) && s.m.state == HalfOpen
    ensures s.admitted <= cfg.maxRequests
    ensures Before(cfg, s.m, now).1 ==
            if s.admitted == cfg.maxRequests then RejectedTooMany else Admitted(s.m.generation)
    ensures s.inflight[s.m.generation] == 0 ==> Before(cfg, s.m, now).1.Admitted?
  {
    ReachableInv(cfg, s);
  }

  /** Every generation follows an allowed edge from the one before, tokens never carry an open one, and
      one step opens at most one generation. */
  lemma Generations(cfg: Config, s: System, e: Event)
    requires ValidConfig(cfg) && Reachable(cfg, s) && Enabled(s, e)
    ensures |s.history| == s.m.generation
    ensures forall i :: 0 < i < |s.history| ==> Edge(cfg, s.history[i - 1], s.history[i])
    ensures forall g :: g in s.inflight ==> 1 <= g <= |s.history| && s.history[g - 1] != Open
    ensures var t := Step(cfg, s, e);
            || (t.m.generation == s.m.generation && t.m.state == s.m.state)
            || (t.m.generation == s.m.generation + 1 && Edge(cfg, s.m.state, t.m.state))
  {
    hide Step, Reachable;
    ReachableInv(cfg, s);
    StepKeepsInv(cfg, s, e);
  }

  // ---- answers ----

  /** What a request is answered at any time, in every reachable state. A closed breaker always admits: in the
      current generation, or in the next if the interval has passed. An open one rejects up to the deadline, and then
      admits in the next generation. A half-open one rejects exactly when maxRequests are in. */
  lemma AdmissionVerdict(cfg: Config, s: System, now: int)
    requires ValidConfig(cfg) && Reachable(cfg, s) && s.clock <= now
    ensures Before(cfg, s.m, now).1 ==
            match s.m.state
            case Closed =>
              if cfg.interval > 0 && s.since + cfg.interval < now then Admitted(s.m.generation + 1)
              else Admitted(s.m.generation)
            case Open => if now <= s.since + cfg.timeout then RejectedOpen else Admitted(s.m.generation + 1)
            case HalfOpen => if s.admitted == cfg.maxRequests then RejectedTooMany else Admitted(s.m.generation)
  {
    ReachableInv(cfg, s);
  }

  /** What the clock makes due: nothing, or a fresh page of the next generation. */
  lemma Due(cfg: Config, s: System, now: int)
    ensures var t := Settle(cfg, s, now);
            && t.m == Current(cfg, s.m, now) && t.inflight == s.inflight && t.clock == now
            && (t.m.generation == s.m.generation ==> t == s.(clock := now))
            && (t.m.generation != s.m.generation ==>
                  && t.m.state == (if s.m.state == Open then HalfOpen else Closed)
                  && t.m.counts == CLEARED && t.admitted == 0 && t.log == [] && t.since == now)
            && (t.m.state == Open ==> t.m.generation == s.m.generation)
  {
  }

  /** An admission in the current generation adds one request and a token, and changes nothing else; one in the next
      generation finds a fresh closed or half-open page. A rejection changes nothing but the clock. */
  lemma AdmissionAddsOneRequest(cfg: Config, s: System, now: int)
    requires ValidConfig(cfg) && Reachable(cfg, s) && s.clock <= now
    ensures var t, c := Step(cfg, s, Admit(now)), s.m.counts;
            match Before(cfg, s.m, now).1
            case Admitted(g) =>
              && t.inflight == s.inflight + multiset{g} && t.m.generation == g && t.clock == now
              && (g == s.m.generation ==>
                    && t.m == s.m.(counts := c.(requests := (c.requests + 1) % 0x1_0000_0000))
                    && t.admitted == s.admitted + 1 && t.log == s.log && t.since == s.since)
              && (g != s.m.generation ==>
                    && t.m.state == (if s.m.state == Open then HalfOpen else Closed)
                    && t.m.counts == Counts(1, 0, 0, 0, 0)
                    && t.admitted == 1 && t.log == [] && t.since == now)
            case _ => t == s.(clock := now)
  {
    Due(cfg, s, now);
    hide Current, Settle, Reachable;
  }

  // ---- trips ----

  lemma {:induction false} OpenWindow(cfg: Config, s: System, x: int, es: seq<Event>)
    requires ValidConfig(cfg) && Inv(cfg, s) && ValidRun(cfg, s, es)
    requires s.m.state == Open && s.m.expiry == At(x)
    requires forall i :: 0 <= i < |es| ==> es[i].now <= x
    ensures Run(cfg, s, es).m == s.m
    ensures Run(cfg, s, es).clock <= x || Run(cfg, s, es).clock == s.clock
    ensures forall v :: v in Verdicts(cfg, s.m, es) ==> v == RejectedOpen
    decreases |es|
  {
    if es != [] {
      StepKeepsInv(cfg, s, es[0]);
      OpenStep(cfg, s, x, es[0]);
      OpenWindow(cfg, Step(cfg, s, es[0]), x, es[1..]);
    }
  }

  lemma OpenStep(cfg: Config, s: System, x: int, e: Event)
    requires Inv(cfg, s) && s.m.state == Open && s.m.expiry == At(x) && e.now <= x
    ensures Step(cfg, s, e).m == s.m == MachineStep(cfg, s.m, e)
    ensures e.Admit? ==> Before(cfg, s.m, e.now).1 == RejectedOpen
  {
    hide Inv;
  }

  /** After a trip at time e.now, nothing is admitted up to e.now + timeout, whatever reports and reads
      arrive meanwhile; the first request after that is admitted as a half-open probe. */
  lemma {:induction false} TripWindow(cfg: Config, s: System, e: Event, es: seq<Event>, next: int)
    requires ValidConfig(cfg) && Reachable(cfg, s) && Enabled(s, e)
    requires Step(cfg, s, e).m.state == Open && Step(cfg, s, e).m.generation != s.m.generation
    requires ValidRun(cfg, Step(cfg, s, e), es)
    requires forall i :: 0 <= i < |es| ==> es[i].now <= e.now + cfg.timeout
    requires e.now + cfg.timeout < next
    ensures var t := Step(cfg, s, e);
            var u := Run(cfg, t, es);
            && (forall v :: v in Verdicts(cfg, t.m, es) ==> v == RejectedOpen)
            && u.m == t.m
            && Enabled(u, Admit(next))
            && Before(cfg, u.m, next).1 == Admitted(t.m.generation + 1)
            && Step(cfg, u, Admit(next)).m.state == HalfOpen
  {
    hide Step, Run, Before, ValidRun;
    ReachableInv(cfg, s);
    StepKeepsInv(cfg, s, e);
    var t := Step(cfg, s, e);
    OpenWindow(cfg, t, e.now + cfg.timeout, es);
    ProbeAfterDeadline(cfg, Run(cfg, t, es), e.now + cfg.timeout, next);
  }

  lemma ProbeAfterDeadline(cfg: Config, s: System, deadline: int, now: int)
    requires ValidConfig(cfg) && s.m.state == Open && s.m.expiry == At(deadline) && deadline < now
    ensures Before(cfg, s.m, now).1 == Admitted(s.m.generation + 1)
    ensures Step(cfg, s, Admit(now)).m.state == HalfOpen
  {
  }

  // ---- the closed state and the default trip rule ----

  /** In every state the counters are those of the reports accepted in the current generation; a
      closed breaker trips exactly when the rule says so of the counters after a failure. */
  lemma ClosedTrips(cfg: Config, s: System, e: Event)
    requires ValidConfig(cfg) && Reachable(cfg, s) && Enabled(s, e) && s.m.state == Closed
    requires e.Report? && !Stale(cfg, s, e)
    ensures s.m.counts == CountsOf(s.admitted, s.log)
    ensures Step(cfg, s, e).m.state == Open <==>
            !e.success && cfg.readyToTrip(CountsOf(s.admitted, s.log + [false]))
  {
    ReachableInv(cfg, s);
    CurrentReport(cfg, s, e);
    AcceptClosed(cfg, s.(clock := e.now, inflight := s.inflight - multiset{e.generation}), e.now, e.success);
  }

  ghost predicate DefaultRule(cfg: Config) {
    forall c :: cfg.readyToTrip(c) == DefaultReadyToTrip(c)
  }

  ghost predicate FewFailures(s: System) {
    s.m.state == Closed ==> Trailing(s.log, false) < DEFAULT_TRIP
  }

  lemma FailureRun(log: seq<bool>, ok: bool)
    ensures Trailing(log + [ok], false) == if ok then 0 else 1 + Trailing(log, false)
  {
    var l := log + [ok];
    assert l[..|l| - 1] == log;
  }

  lemma DefaultRuleOnLog(cfg: Config, admitted: nat, log: seq<bool>)
    requires DefaultRule(cfg) && Trailing(log, false) < DEFAULT_TRIP
    ensures cfg.readyToTrip(CountsOf(admitted, log + [false])) <==> Trailing(log, false) + 1 == DEFAULT_TRIP
  {
    FailureRun(log, false);
    assert CountsOf(admitted, log + [false]).consecutiveFailures == Trailing(log, false) + 1;
  }

  lemma FewFailuresReport(cfg: Config, s: System, e: Event)
    requires ValidConfig(cfg) && DefaultRule(cfg) && Inv(cfg, s) && Enabled(s, e) && FewFailures(s)
    requires e.Report? && !Stale(cfg, s, e)
    ensures FewFailures(Step(cfg, s, e))
  {
    hide Step, Accept, CountsOf;
    CurrentReport(cfg, s, e);
    var u := s.(clock := e.now, inflight := s.inflight - multiset{e.generation});
    if s.m.state == Closed {
      AcceptClosed(cfg, u, e.now, e.success);
      FailureRun(s.log, e.success);
      DefaultRuleOnLog(cfg, s.admitted, s.log);
    } else {
      AcceptHalfOpen(cfg, u, e.now, e.success);
    }
  }

  lemma {:induction false} FewFailuresAlways(cfg: Config, s: System, es: seq<Event>)
    requires ValidConfig(cfg) && DefaultRule(cfg) && Inv(cfg, s) && ValidRun(cfg, s, es) && FewFailures(s)
    ensures FewFailures(Run(cfg, s, es))
    decreases |es|
  {
    if es != [] {
      if es[0].Report? && !Stale(cfg, s, es[0]) {
        FewFailuresReport(cfg, s, es[0]);
      }
      StepKeepsInv(cfg, s, es[0]);
      FewFailuresAlways(cfg, Step(cfg, s, es[0]), es[1..]);
    }
  }

  lemma ReachableFewFailures(cfg: Config, s: System)
    requires ValidConfig(cfg) && DefaultRule(cfg) && Reachable(cfg, s)
    ensures Inv(cfg, s) && FewFailures(s)
  {
    var t0: int, es: seq<Event> :|
      ValidRun(cfg, Init(cfg, t0), es) && s == Run(cfg, Init(cfg, t0), es);
    InitInv(cfg, t0);
    RunKeepsInv(cfg, Init(cfg, t0), es);
    FewFailuresAlways(cfg, Init(cfg, t0), es);
  }

  /** With the default rule every reachable closed state has at most four consecutive failures, and the
      breaker trips exactly on the report that makes it five. */
  lemma DefaultTrip(cfg: Config, s: System, e: Event)
    requires ValidConfig(cfg) && DefaultRule(cfg) && Reachable(cfg, s) && s.m.state == Closed
    ensures s.m.counts.consecutiveFailures == Trailing(s.log, false) < 5
    ensures e.Report? && Enabled(s, e) && !Stale(cfg, s, e) ==>
            (Step(cfg, s, e).m.state == Open <==>
               !e.success && Trailing(s.log + [false], false) == 5)
  {
    ReachableFewFailures(cfg, s);
    if e.Report? && Enabled(s, e) && !Stale(cfg, s, e) {
      ClosedTrips(cfg, s, e);
      FailureRun(s.log, false);
      DefaultRuleOnLog(cfg, s.admitted, s.log);
    }
  }

  // ---- stale reports ----

  /** The run without its stale reports. */
  function Erase(cfg: Config, s: System, es: seq<Event>): seq<Event>
    decreases |es|
  {
    if es == [] then []
    else (if Stale(cfg, s, es[0]) then [] else [es[0]]) + Erase(cfg, Step(cfg, s, es[0]), es[1..])
  }

  /** `b` is `a`, or still has to take the Open to HalfOpen step that was due before `clock`. */
  ghost predicate Lags(cfg: Config, a: Machine, b: Machine, clock: int) {
    a == b || (b.state == Open && b.expiry.Before(clock) && a == SetState(cfg, b, HalfOpen, clock))
  }

  lemma LagCatchesUp(cfg: Config, a: Machine, b: Machine, clock: int, now: int)
    requires Lags(cfg, a, b, clock) && clock <= now
    ensures Current(cfg, a, now) == Current(cfg, b, now)
  {
  }

  /** One event of the full run against the run without stale reports. */
  lemma LagStep(cfg: Config, s: System, b: Machine, e: Event)
    requires cfg.interval == 0 && Inv(cfg, s) && Enabled(s, e) && Lags(cfg, s.m, b, s.clock)
    ensures Stale(cfg, s, e) ==> Lags(cfg, Step(cfg, s, e).m, b, e.now)
    ensures !Stale(cfg, s, e) ==> MachineStep(cfg, b, e) == Step(cfg, s, e).m
    ensures e.Admit? ==> Before(cfg, b, e.now).1 == Before(cfg, s.m, e.now).1
    ensures MachineStep(cfg, s.m, e) == Step(cfg, s, e).m
  {
    LagCatchesUp(cfg, s.m, b, s.clock, e.now);
  }

  lemma {:induction false} ErasureLags(cfg: Config, s: System, b: Machine, es: seq<Event>)
    requires ValidConfig(cfg) && cfg.interval == 0 && Inv(cfg, s) && ValidRun(cfg, s, es)
    requires Lags(cfg, s.m, b, s.clock)
    ensures var es' := Erase(cfg, s, es);
            && Verdicts(cfg, b, es') == Verdicts(cfg, s.m, es)
            && Lags(cfg, Run(cfg, s, es).m, MachineRun(cfg, b, es'), Run(cfg, s, es).clock)
    decreases |es|
  {
    hide Step, MachineStep, Before, Inv;
    if es != [] {
      var e, rest := es[0], es[1..];
      var t := Step(cfg, s, e);
      LagStep(cfg, s, b, e);
      StepKeepsInv(cfg, s, e);
      if Stale(cfg, s, e) {
        assert Erase(cfg, s, es) == Erase(cfg, t, rest);
        ErasureLags(cfg, t, b, rest);
      } else {
        ErasureLags(cfg, t, t.m, rest);
        assert Erase(cfg, s, es)[1..] == Erase(cfg, t, rest);
      }
    }
  }

  /** Whether stale reports can be deleted from any run without anybody noticing: the same answers to
      every request, and the same machine at every later clock reading. */
  ghost predicate StaleReportsInvisible(cfg: Config) {
    forall t0: int, es: seq<Event>, now: int ::
      ValidRun(cfg, Init(cfg, t0), es) && Run(cfg, Init(cfg, t0), es).clock <= now ==>
        SameWithout(cfg, Init(cfg, t0), es, now)
  }

  ghost predicate SameWithout(cfg: Config, s: System, es: seq<Event>, now: int) {
    var es' := Erase(cfg, s, es);
    && Verdicts(cfg, s.m, es') == Verdicts(cfg, s.m, es)
    && Current(cfg, MachineRun(cfg, s.m, es'), now) == Current(cfg, MachineRun(cfg, s.m, es), now)
  }

  /** Stale reports are invisible exactly when the closed state has no rolling interval. */
  lemma StaleReportsInvisibleIffNoInterval(cfg: Config)
    requires ValidConfig(cfg)
    ensures StaleReportsInvisible(cfg) <==> cfg.interval == 0
  {
    if cfg.interval == 0 {
      forall t0: int, es: seq<Event>, now: int |
        ValidRun(cfg, Init(cfg, t0), es) && Run(cfg, Init(cfg, t0), es).clock <= now
        ensures SameWithout(cfg, Init(cfg, t0), es, now)
      {
        var s := Init(cfg, t0);
        InitInv(cfg, t0);
        ErasureLags(cfg, s, s.m, es);
        RunFollowsMachine(cfg, s, es);
        LagCatchesUp(cfg, Run(cfg, s, es).m, MachineRun(cfg, s.m, Erase(cfg, s, es)),
                     Run(cfg, s, es).clock, now);
      }
    } else {
      var es, now := RollingCounterexample(cfg, 0);
      assert !SameWithout(cfg, Init(cfg, 0), es, now);
    }
  }

  /** With a rolling interval, a stale report that arrives after the interval moves the next roll-over;
      two requests later the breaker has counted one request with it and two without it. */
  lemma RollingCounterexample(cfg: Config, t0: int) returns (es: seq<Event>, now: int)
    requires ValidConfig(cfg) && cfg.interval > 0
    ensures ValidRun(cfg, Init(cfg, t0), es) && Run(cfg, Init(cfg, t0), es).clock <= now
    ensures var m, es' := Init(cfg, t0).m, Erase(cfg, Init(cfg, t0), es);
            && MachineRun(cfg, m, es).counts.requests == 1
            && MachineRun(cfg, m, es').counts.requests == 2
    ensures !SameWithout(cfg, Init(cfg, t0), es, now)
  {
    hide Step, MachineStep;
    var i := cfg.interval;
    var s0 := Init(cfg, t0);
    var e0, e1 := Admit(t0), Report(t0 + i + 1, 1, true);
    var e2, e3 := Admit(t0 + 2 * i + 1), Admit(t0 + 2 * i + 2);
    now := t0 + 2 * i + 2;
    var s1, s2, s3, s4 := RollingStates(cfg, t0);
    var m1, m2, m3 := RollingMachines(cfg, t0);
    es := OneStale(cfg, [s0, s1, s2, s3, s4], [s0.m, m1, m2, m3], [e0, e1, e2, e3]);
    RunFollowsMachine(cfg, s0, es);
    Differs(cfg, s0, es, now, s4.m, m3);
  }

  /** Four steps of a system, the second a stale report, and the three steps of a machine without it. */
  lemma OneStale(cfg: Config, s: seq<System>, m: seq<Machine>, e: seq<Event>) returns (es: seq<Event>)
    requires |s| == 5 && |m| == 4 && |e| == 4
    requires forall k :: 0 <= k < 4 ==> Enabled(s[k], e[k]) && s[k + 1] == Step(cfg, s[k], e[k])
    requires forall k :: 0 <= k < 4 ==> (Stale(cfg, s[k], e[k]) <==> k == 1)
    requires m[1] == MachineStep(cfg, m[0], e[0])
    requires m[2] == MachineStep(cfg, m[1], e[2])
    requires m[3] == MachineStep(cfg, m[2], e[3])
    ensures ValidRun(cfg, s[0], es) && Run(cfg, s[0], es) == s[4]
    ensures MachineRun(cfg, m[0], Erase(cfg, s[0], es)) == m[3]
  {
    var r3, x3 := Prepend(cfg, s[3], m[2], e[3], [], []);
    var r2, x2 := Prepend(cfg, s[2], m[1], e[2], r3, x3);
    var r1, x1 := Prepend(cfg, s[1], m[1], e[1], r2, x2);
    var r0, x0 := Prepend(cfg, s[0], m[0], e[0], r1, x1);
    es := r0;
  }

  lemma Differs(cfg: Config, s: System, es: seq<Event>, now: int, m: Machine, m': Machine)
    requires MachineRun(cfg, s.m, es) == m && MachineRun(cfg, s.m, Erase(cfg, s, es)) == m'
    requires Current(cfg, m, now) == m && Current(cfg, m', now) == m' && m != m'
    ensures !SameWithout(cfg, s, es, now)
  {
  }

  /** Puts one event before a run `rest` of a system and before its erasure `erased`, run on `m`. */
  lemma Prepend(cfg: Config, s: System, m: Machine, e: Event, rest: seq<Event>, erased: seq<Event>)
    returns (es: seq<Event>, es': seq<Event>)
    requires Enabled(s, e) && ValidRun(cfg, Step(cfg, s, e), rest)
    requires erased == Erase(cfg, Step(cfg, s, e), rest)
    ensures ValidRun(cfg, s, es) && Run(cfg, s, es) == Run(cfg, Step(cfg, s, e), rest)
    ensures es' == Erase(cfg, s, es)
    ensures MachineRun(cfg, m, es') ==
            MachineRun(cfg, if Stale(cfg, s, e) then m else MachineStep(cfg, m, e), erased)
  {
    es := [e] + rest;
    assert es[1..] == rest;
    es' := if Stale(cfg, s, e) then erased else [e] + erased;
    assert !Stale(cfg, s, e) ==> es'[1..] == erased;
  }

  lemma RollingStates(cfg: Config, t0: int) returns (s1: System, s2: System, s3: System, s4: System)
    requires ValidConfig(cfg) && cfg.interval > 0
    ensures var i, s0 := cfg.interval, Init(cfg, t0);
            var e1, e2, e3 := Report(t0 + i + 1, 1, true), Admit(t0 + 2 * i + 1), Admit(t0 + 2 * i + 2);
            && Enabled(s0, Admit(t0)) && s1 == Step(cfg, s0, Admit(t0))
            && Enabled(s1, e1) && s2 == Step(cfg, s1, e1) && Stale(cfg, s1, e1)
            && Enabled(s2, e2) && s3 == Step(cfg, s2, e2)
            && Enabled(s3, e3) && s4 == Step(cfg, s3, e3) && s4.clock == t0 + 2 * i + 2
            && s4.m == Machine(Closed, 3, CLEARED.OnRequest(), At(t0 + 3 * i + 2))
  {
    hide Step;
    var i := cfg.interval;
    s1 := Step(cfg, Init(cfg, t0), Admit(t0));
    ClosedAdmit(cfg, Init(cfg, t0), t0);
    s2 := Step(cfg, s1, Report(t0 + i + 1, 1, true));
    LateReport(cfg, s1, t0 + i + 1);
    s3 := Step(cfg, s2, Admit(t0 + 2 * i + 1));
    ClosedAdmit(cfg, s2, t0 + 2 * i + 1);
    s4 := Step(cfg, s3, Admit(t0 + 2 * i + 2));
    RolledAdmit(cfg, s3, t0 + 2 * i + 2);
  }

  lemma ClosedAdmit(cfg: Config, s: System, now: int)
    requires s.m.state == Closed && s.m.expiry.At? && now <= s.m.expiry.when
    ensures var t := Step(cfg, s, Admit(now));
            && t.m == s.m.(counts := s.m.counts.OnRequest()) && t.clock == now
            && t.inflight == s.inflight + multiset{s.m.generation}
  {
  }

  lemma RolledAdmit(cfg: Config, s: System, now: int)
    requires s.m.state == Closed && s.m.expiry.At? && s.m.expiry.when < now && cfg.interval > 0
    ensures var t := Step(cfg, s, Admit(now));
            && t.m == Machine(Closed, s.m.generation + 1, CLEARED.OnRequest(), At(now + cfg.interval))
            && t.clock == now
  {
  }

  lemma LateReport(cfg: Config, s: System, now: int)
    requires s.m.state == Closed && s.m.expiry.At? && s.m.expiry.when < now && cfg.interval > 0
    ensures var e := Report(now, s.m.generation, true);
            var t := Step(cfg, s, e);
            && Stale(cfg, s, e)
            && t.m == Machine(Closed, s.m.generation + 1, CLEARED, At(now + cfg.interval))
            && t.clock == now
  {
  }

  lemma RollingMachines(cfg: Config, t0: int) returns (m1: Machine, m2: Machine, m3: Machine)
    requires ValidConfig(cfg) && cfg.interval > 0
    ensures var i := cfg.interval;
            && m1 == MachineStep(cfg, Init(cfg, t0).m, Admit(t0))
            && m2 == MachineStep(cfg, m1, Admit(t0 + 2 * i + 1))
            && m3 == MachineStep(cfg, m2, Admit(t0 + 2 * i + 2))
            && m3 == Machine(Closed, 2, CLEARED.OnRequest().OnRequest(), At(t0 + 3 * i + 1))
  {
    var i := cfg.interval;
    m1 := MachineStep(cfg, Init(cfg, t0).m, Admit(t0));
    assert m1 == Machine(Closed, 1, CLEARED.OnRequest(), At(t0 + i));
    m2 := MachineStep(cfg, m1, Admit(t0 + 2 * i + 1));
    assert m2 == Machine(Closed, 2, CLEARED.OnRequest(), At(t0 + 3 * i + 1));
    m3 := MachineStep(cfg, m2, Admit(t0 + 2 * i + 2));
  }
}
