/** Server-side JSON-RPC batches (section 6 of the JSON-RPC 2.0 Specification): one response per request
    that carries an id, none for a notification. */
module Batch {
  import opened Wrappers
  import opened Sums

  /** The raw JSON of an id member. */
  type Id = string

  /** A request without an id is a notification. */
  datatype Request = Request(id: Option<Id>, version: string, name: string, hasParams: bool)

  datatype Body = Result(json: string) | Error(code: int, message: string)

  datatype Response = Response(id: Option<Id>, body: Body)

  const VERSION: string := "2.0"
  const PARSE_ERROR: int := -32700
  const INVALID_REQUEST: int := -32600
  const METHOD_NOT_FOUND: int := -32601

  /** How the service method returns. */
  datatype Called = Returned(json: string) | Failed(code: int, message: string)

  /** What happens while a request is handled: whether its name is, in lower case, that of one of the five methods;
      what the decoder says of its parameters; how the method returns; what the encoder says of the result. */
  datatype Handling = Handling(known: bool, decoding: Option<string>, called: Called, encoding: Option<string>)

  function MakeErrorResponse(id: Option<Id>, code: int, message: string): Option<Response> {
    if id.None? then None else Some(Response(id, Error(code, message)))
  }

  /** What the switch and the handlers, which all have one form, come to: the result, exactly if nothing goes wrong,
      and otherwise the first error. */
  function Outcome(request: Request, handling: Handling): (body: Body)
    ensures body.Result? <==>
            && handling.known && !(request.hasParams && handling.decoding.Some?) && request.version == "2.0"
            && handling.called.Returned? && handling.encoding.None?
    ensures body.Result? ==> body.json == handling.called.json
  {
    if !handling.known then Error(METHOD_NOT_FOUND, "invalid method '" + request.name + "'")
    else if request.hasParams && handling.decoding.Some? then
      Error(PARSE_ERROR, "request body could not be decoded: " + handling.decoding.value)
    else if request.version != VERSION then Error(PARSE_ERROR, "incorrect protocol version: " + request.version)
    else if handling.called.Failed? then Error(handling.called.code, handling.called.message)
    else if handling.encoding.Some? then
      Error(PARSE_ERROR, "response body could not be encoded: " + handling.encoding.value)
    else Result(handling.called.json)
  }

  /** doSingleBatch: whatever exit is taken, the answer carries the request's own id; an answer to a notification
      carries none. */
  function DoSingle(request: Request, handling: Handling): (r: Option<Response>)
    ensures request.id.Some? ==> r == Some(Response(request.id, Outcome(request, handling)))
    ensures request.id.None? && r.Some? ==> r.value.id.None?
  {
    match Outcome(request, handling)
    case Result(json) => Some(Response(request.id, Result(json)))
    case Error(code, message) => MakeErrorResponse(request.id, code, message)
  }

  /** The five ways to fail, each with the code and the message that the client gets. */
  lemma ErrorExits(request: Request, handling: Handling)
    requires request.id.Some?
    ensures DoSingle(request, handling).Some? && DoSingle(request, handling).value.id == request.id
    ensures var body := DoSingle(request, handling).value.body;
            if !handling.known then body == Error(-32601, "invalid method '" + request.name + "'")
            else if request.hasParams && handling.decoding.Some? then
              body == Error(-32700, "request body could not be decoded: " + handling.decoding.value)
            else if request.version != "2.0" then
              body == Error(-32700, "incorrect protocol version: " + request.version)
            else if handling.called.Failed? then body == Error(handling.called.code, handling.called.message)
            else if handling.encoding.Some? then
              body == Error(-32700, "response body could not be encoded: " + handling.encoding.value)
            else body == Result(handling.called.json)
  {
  }

  /** jsonrpcResponses.append: drops a missing response and one without an id. */
  function Append(responses: seq<Response>, r: Option<Response>): seq<Response> {
    if r.Some? && r.value.id.Some? then responses + [r.value] else responses
  }

  /** A request with what happens while it is handled. */
  datatype Job = Job(request: Request, handling: Handling)
  {
    function Reply(): Response {
      Response(request.id, Outcome(request, handling))
    }
  }

  /** What one request adds to the responses of a batch, in either mode. */
  function Answer(responses: seq<Response>, job: Job): seq<Response> {
    if job.request.id.Some? then Append(responses, DoSingle(job.request, job.handling)) else responses
  }

  // ---- what is owed ----

  /** What the specification owes one request: its own outcome under its own id, or nothing. */
  ghost function Due(job: Job): multiset<Response> {
    if job.request.id.Some? then multiset{job.Reply()} else multiset{}
  }

  /** The responses owed for the first `n` requests. */
  ghost function Owed(jobs: seq<Job>, n: nat): multiset<Response>
    requires n <= |jobs|
  {
    if n == 0 then multiset{} else Owed(jobs, n - 1) + Due(jobs[n - 1])
  }

  lemma AnswerGivesDue(responses: seq<Response>, job: Job)
    ensures multiset(Answer(responses, job)) == multiset(responses) + Due(job)
  {
  }

  /** The responses owed for the first `n` requests, in the order of the requests. */
  function InOrder(jobs: seq<Job>, n: nat): seq<Response>
    requires n <= |jobs|
  {
    if n == 0 then []
    else
      var job := jobs[n - 1];
      InOrder(jobs, n - 1) + if job.request.id.Some? then [job.Reply()] else []
  }

  lemma {:induction false} InOrderIsOwed(jobs: seq<Job>, n: nat)
    requires n <= |jobs|
    ensures multiset(InOrder(jobs, n)) == Owed(jobs, n)
  {
    if n > 0 {
      InOrderIsOwed(jobs, n - 1);
    }
  }

  /** The number of the first `n` requests that carry an id. */
  function Asked(jobs: seq<Job>, n: nat): nat
    requires n <= |jobs|
  {
    if n == 0 then 0 else Asked(jobs, n - 1) + if jobs[n - 1].request.id.Some? then 1 else 0
  }

  /** The response to a request with an id stands behind those to the requests before it, as DoSingle makes it;
      there are no more responses than requests with ids. */
  lemma {:induction false} ResponseOf(jobs: seq<Job>, n: nat, i: nat)
    requires i < n <= |jobs| && jobs[i].request.id.Some?
    ensures |InOrder(jobs, n)| == Asked(jobs, n) > Asked(jobs, i)
    ensures Some(InOrder(jobs, n)[Asked(jobs, i)]) == DoSingle(jobs[i].request, jobs[i].handling)
    ensures InOrder(jobs, n)[Asked(jobs, i)].id == jobs[i].request.id
    decreases n
  {
    hide Outcome;
    AskedSize(jobs, n - 1);
    if i < n - 1 {
      ResponseOf(jobs, n - 1, i);
    }
  }

  lemma {:induction false} AskedSize(jobs: seq<Job>, n: nat)
    requires n <= |jobs|
    ensures |InOrder(jobs, n)| == Asked(jobs, n)
  {
    if n > 0 {
      AskedSize(jobs, n - 1);
    }
  }

  /** The sequential mode, chosen by the X-Sync-On header. */
  method DoBatchSync(jobs: seq<Job>) returns (responses: seq<Response>)
    ensures responses == InOrder(jobs, |jobs|)
  {
    responses := [];
    for i := 0 to |jobs|
      invariant responses == InOrder(jobs, i)
    {
      responses := Answer(responses, jobs[i]);
    }
  }

  // ---- the parallel mode ----

  datatype Worker = Idle | Busy(index: nat) | Exited

  /** A feeder, a channel as large as the number of workers, and the workers. Requests are named by
      their position in the batch. */
  datatype Pool = Pool(
    next: nat,
    channel: seq<nat>,
    closed: bool,
    workers: seq<Worker>,
    responses: seq<Response>)

  datatype Step =
    | Feed
    | Close
    | Take(worker: nat)
    | Finish(worker: nat)
    | Exit(worker: nat)

  /** The number of workers, which is also the capacity of the channel. */
  function BatchWidth(jobs: seq<Job>, maxParallel: nat): nat {
    if |jobs| < maxParallel then |jobs| else maxParallel
  }

  function StartPool(width: nat): Pool {
    Pool(0, [], false, seq(width, _ => Idle), [])
  }

  predicate Enabled(jobs: seq<Job>, p: Pool, st: Step) {
    match st
    case Feed => p.next < |jobs| && |p.channel| < |p.workers|
    case Close => p.next == |jobs| && !p.closed
    case Take(w) => w < |p.workers| && p.workers[w] == Idle && p.channel != []
    case Finish(w) => w < |p.workers| && p.workers[w].Busy? && p.workers[w].index < |jobs|
    case Exit(w) => w < |p.workers| && p.workers[w] == Idle && p.channel == [] && p.closed
  }

  function Next(jobs: seq<Job>, p: Pool, st: Step): Pool
    requires Enabled(jobs, p, st)
  {
    match st
    case Feed => p.(channel := p.channel + [p.next], next := p.next + 1)
    case Close => p.(closed := true)
    case Take(w) => p.(workers := p.workers[w := Busy(p.channel[0])], channel := p.channel[1..])
    case Finish(w) =>
      p.(responses := Answer(p.responses, jobs[p.workers[w].index]),
         workers := p.workers[w := Idle])
    case Exit(w) => p.(workers := p.workers[w := Exited])
  }

  /** wg.Wait() returns. */
  predicate Finished(p: Pool) {
    p.closed && forall w :: 0 <= w < |p.workers| ==> p.workers[w] == Exited
  }

  // ---- conservation ----

  ghost predicate AllIn(jobs: seq<Job>, positions: seq<nat>) {
    forall k :: 0 <= k < |positions| ==> positions[k] < |jobs|
  }

  /** The responses owed for the requests at the given positions. */
  ghost function OwedAt(jobs: seq<Job>, positions: seq<nat>): multiset<Response>
    requires AllIn(jobs, positions)
  {
    if positions == [] then multiset{}
    else Due(jobs[positions[0]]) + OwedAt(jobs, positions[1..])
  }

  ghost predicate InRange(jobs: seq<Job>, workers: seq<Worker>) {
    forall w :: 0 <= w < |workers| ==> (workers[w].Busy? ==> workers[w].index < |jobs|)
  }

  ghost function HeldBy(jobs: seq<Job>, w: Worker): multiset<Response>
    requires w.Busy? ==> w.index < |jobs|
  {
    if w.Busy? then Due(jobs[w.index]) else multiset{}
  }

  /** The responses owed for the requests that workers are serving. */
  ghost function Held(jobs: seq<Job>, workers: seq<Worker>): multiset<Response>
    requires InRange(jobs, workers)
  {
    if workers == [] then multiset{}
    else HeldBy(jobs, workers[0]) + Held(jobs, workers[1..])
  }

  lemma {:induction false} OwedAtAppend(jobs: seq<Job>, positions: seq<nat>, i: nat)
    requires i < |jobs| && AllIn(jobs, positions)
    ensures OwedAt(jobs, positions + [i]) == OwedAt(jobs, positions) + Due(jobs[i])
  {
    if positions == [] {
      assert positions + [i] == [i];
    } else {
      assert (positions + [i])[1..] == positions[1..] + [i];
      OwedAtAppend(jobs, positions[1..], i);
    }
  }

  lemma Shift(a: multiset<Response>, b: multiset<Response>, c: multiset<Response>, d: multiset<Response>,
              e: multiset<Response>)
    requires b + c == d + e
    ensures (a + b) + c == (a + d) + e
  {
    assert (a + b) + c == a + (b + c);
    assert (a + d) + e == a + (d + e);
  }

  /** A response that moves from `held` to `given`. */
  lemma Moved(given: multiset<Response>, rest: multiset<Response>, held: multiset<Response>,
              held': multiset<Response>, due: multiset<Response>)
    requires held' + due == held
    ensures (given + due) + rest + held' == given + rest + held
  {
    assert (given + due) + rest + held' == given + rest + (held' + due);
  }

  lemma {:induction false} HeldUpdate(jobs: seq<Job>, workers: seq<Worker>, w: nat, x: Worker)
    requires InRange(jobs, workers) && w < |workers|
    requires x.Busy? ==> x.index < |jobs|
    ensures InRange(jobs, workers[w := x])
    ensures Held(jobs, workers[w := x]) + HeldBy(jobs, workers[w])
            == Held(jobs, workers) + HeldBy(jobs, x)
  {
    hide HeldBy;
    if w == 0 {
      assert workers[w := x][1..] == workers[1..];
    } else {
      var rest := workers[1..];
      HeldUpdate(jobs, rest, w - 1, x);
      assert workers[w := x][1..] == rest[w - 1 := x];
      Shift(HeldBy(jobs, workers[0]), Held(jobs, rest[w - 1 := x]), HeldBy(jobs, workers[w]),
            Held(jobs, rest), HeldBy(jobs, x));
    }
  }

  lemma HeldChange(jobs: seq<Job>, workers: seq<Worker>, w: nat, x: Worker)
    requires InRange(jobs, workers) && w < |workers|
    requires x.Busy? ==> x.index < |jobs|
    ensures InRange(jobs, workers[w := x])
    ensures !workers[w].Busy? ==> Held(jobs, workers[w := x]) == Held(jobs, workers) + HeldBy(jobs, x)
    ensures !x.Busy? ==> Held(jobs, workers[w := x]) + HeldBy(jobs, workers[w]) == Held(jobs, workers)
  {
    hide Held;
    HeldUpdate(jobs, workers, w, x);
    var h, h' := Held(jobs, workers), Held(jobs, workers[w := x]);
    assert h + multiset{} == h && h' + multiset{} == h';
  }

  lemma {:induction false} NothingHeld(jobs: seq<Job>, workers: seq<Worker>)
    requires forall w :: 0 <= w < |workers| ==> !workers[w].Busy?
    ensures Held(jobs, workers) == multiset{}
  {
    if workers != [] {
      NothingHeld(jobs, workers[1..]);
    }
  }

  ghost predicate Shape(jobs: seq<Job>, p: Pool) {
    && p.next <= |jobs|
    && AllIn(jobs, p.channel)
    && InRange(jobs, p.workers)
    && |p.channel| <= |p.workers|
    && (p.closed ==> p.next == |jobs|)
    && (Exited in p.workers ==> p.closed && p.channel == [])
  }

  /** Every response owed for a fed request is in the channel, with a worker, or given. */
  ghost predicate Conserved(jobs: seq<Job>, p: Pool)
    requires Shape(jobs, p)
  {
    multiset(p.responses) + OwedAt(jobs, p.channel) + Held(jobs, p.workers) == Owed(jobs, p.next)
  }

  ghost predicate Inv(jobs: seq<Job>, p: Pool) {
    Shape(jobs, p) && Conserved(jobs, p)
  }

  lemma StepKeepsShape(jobs: seq<Job>, p: Pool, st: Step)
    requires Shape(jobs, p) && Enabled(jobs, p, st)
    ensures Shape(jobs, Next(jobs, p, st))
  {
  }

  lemma StepKeepsInv(jobs: seq<Job>, p: Pool, st: Step)
    requires Inv(jobs, p) && Enabled(jobs, p, st)
    ensures Inv(jobs, Next(jobs, p, st))
  {
    hide Due, Held, Answer;
    StepKeepsShape(jobs, p, st);
    match st
    case Feed => OwedAtAppend(jobs, p.channel, p.next);
    case Close =>
    case Take(w) => HeldChange(jobs, p.workers, w, Busy(p.channel[0]));
    case Finish(w) =>
      var job := jobs[p.workers[w].index];
      AnswerGivesDue(p.responses, job);
      HeldChange(jobs, p.workers, w, Idle);
      Moved(multiset(p.responses), OwedAt(jobs, p.channel), Held(jobs, p.workers),
            Held(jobs, p.workers[w := Idle]), Due(job));
    case Exit(w) =>
      HeldChange(jobs, p.workers, w, Exited);
      var h := Held(jobs, p.workers);
      assert h + multiset{} == h;
  }

  lemma StartInv(jobs: seq<Job>, width: nat)
    ensures Inv(jobs, StartPool(width))
  {
    NothingHeld(jobs, StartPool(width).workers);
  }

  // ---- progress and termination ----

  ghost function Work(workers: seq<Worker>): nat {
    Sum(workers, Effort)
  }

  /** How many steps a pool can still take. */
  ghost function Fuel(jobs: seq<Job>, p: Pool): nat
    requires p.next <= |jobs|
  {
    3 * (|jobs| - p.next) + 2 * |p.channel| + (if p.closed then 0 else 1) + Work(p.workers)
  }

  lemma StepBurnsFuel(jobs: seq<Job>, p: Pool, st: Step)
    requires Inv(jobs, p) && Enabled(jobs, p, st)
    ensures Next(jobs, p, st).next <= |jobs|
    ensures |Next(jobs, p, st).workers| == |p.workers|
    ensures Fuel(jobs, Next(jobs, p, st)) < Fuel(jobs, p)
  {
    hide Conserved, Answer, AllIn, InRange, Sum;
    match st
    case Feed =>
    case Close =>
    case Take(w) => SumUpdate(p.workers, w, Busy(p.channel[0]), Effort);
    case Finish(w) => SumUpdate(p.workers, w, Idle, Effort);
    case Exit(w) => SumUpdate(p.workers, w, Exited, Effort);
  }

  function Effort(w: Worker): nat {
    match w
    case Idle => 1
    case Busy(_) => 2
    case Exited => 0
  }

  /** No interleaving blocks: a pool with a worker, or with nothing to do, is finished or can move. */
  lemma NoDeadlock(jobs: seq<Job>, p: Pool) returns (st: Step)
    requires Shape(jobs, p) && !Finished(p)
    requires |p.workers| > 0 || jobs == []
    ensures Enabled(jobs, p, st)
  {
    var first := if p.workers == [] then Idle else p.workers[0];
    assert p.workers != [] ==> first in p.workers;
    if busy :| 0 <= busy < |p.workers| && p.workers[busy].Busy? {
      st := Finish(busy);
    } else if idle :| 0 <= idle < |p.workers| && p.workers[idle] == Idle {
      if p.channel != [] {
        st := Take(idle);
      } else if p.next < |jobs| {
        st := Feed;
      } else if !p.closed {
        st := Close;
      } else {
        st := Exit(idle);
      }
    } else {
      st := Close;
    }
  }

  function Run(jobs: seq<Job>, p: Pool, steps: seq<Step>): Pool
    requires ValidRun(jobs, p, steps)
    decreases |steps|
  {
    if steps == [] then p else Run(jobs, Next(jobs, p, steps[0]), steps[1..])
  }

  predicate ValidRun(jobs: seq<Job>, p: Pool, steps: seq<Step>)
    decreases |steps|
  {
    steps == [] || (Enabled(jobs, p, steps[0]) && ValidRun(jobs, Next(jobs, p, steps[0]), steps[1..]))
  }

  lemma {:induction false} RunFacts(jobs: seq<Job>, p: Pool, steps: seq<Step>)
    requires Inv(jobs, p) && ValidRun(jobs, p, steps)
    ensures var q := Run(jobs, p, steps);
            && Inv(jobs, q) && |q.workers| == |p.workers|
            && |steps| + Fuel(jobs, q) <= Fuel(jobs, p)
    decreases |steps|
  {
    if steps != [] {
      StepKeepsInv(jobs, p, steps[0]);
      StepBurnsFuel(jobs, p, steps[0]);
      RunFacts(jobs, Next(jobs, p, steps[0]), steps[1..]);
    }
  }

  lemma FinishedGivesOwed(jobs: seq<Job>, p: Pool)
    requires Inv(jobs, p) && Finished(p)
    ensures multiset(p.responses) == Owed(jobs, |jobs|)
  {
    NothingHeld(jobs, p.workers);
    if p.workers != [] {
      assert p.workers[0] in p.workers;
    }
  }

  /** Every interleaving, with atomic appends, of as many workers as there are requests, up to the limit: it takes a
      bounded number of steps; as long as it is not finished some step is possible; and once finished, the responses
      are a permutation of the sequential mode's. */
  lemma {:induction false} ParallelBatch(jobs: seq<Job>, maxParallel: nat, width: nat, steps: seq<Step>)
    requires maxParallel > 0 || jobs == []
    requires width <= |jobs| && width <= maxParallel && (width == |jobs| || width == maxParallel)
    requires ValidRun(jobs, StartPool(width), steps)
    ensures var p := Run(jobs, StartPool(width), steps);
            && |steps| <= 3 * |jobs| + 1 + width
            && (Finished(p) ==> multiset(p.responses) == multiset(InOrder(jobs, |jobs|)))
            && (!Finished(p) ==> exists st :: Enabled(jobs, p, st))
  {
    var p := Run(jobs, StartPool(width), steps);
    StartInv(jobs, width);
    SumOfOnes(width, Idle, Effort);
    RunFacts(jobs, StartPool(width), steps);
    if Finished(p) {
      FinishedGivesOwed(jobs, p);
      InOrderIsOwed(jobs, |jobs|);
    } else {
      var st := NoDeadlock(jobs, p);
    }
  }

  // ---- a single worker ----

  /** The number of requests that are answered or need no answer, if there is one worker. */
  function Answered(p: Pool): int
    requires |p.workers| == 1
  {
    p.next - |p.channel| - if p.workers[0].Busy? then 1 else 0
  }

  /** The requests come out of the channel in the order in which they went in. */
  ghost predicate Orderly(jobs: seq<Job>, p: Pool) {
    && |p.workers| == 1 && p.next <= |jobs| && 0 <= Answered(p)
    && p.responses == InOrder(jobs, Answered(p))
    && (p.workers[0].Busy? ==> p.workers[0].index == Answered(p))
    && (forall i :: 0 <= i < |p.channel| ==> p.channel[i] == p.next - |p.channel| + i)
    && (p.closed ==> p.next == |jobs|)
    && (p.workers[0].Exited? ==> p.closed && p.channel == [])
  }

  lemma StepKeepsOrderly(jobs: seq<Job>, p: Pool, st: Step)
    requires Orderly(jobs, p) && Enabled(jobs, p, st)
    ensures Orderly(jobs, Next(jobs, p, st))
  {
    if st.Finish? {
      var n := Answered(p);
      assert InOrder(jobs, n + 1) == InOrder(jobs, n) + if jobs[n].request.id.Some? then [jobs[n].Reply()] else [];
      assert Answered(Next(jobs, p, st)) == n + 1;
      hide InOrder;
    }
  }

  /** With a parallel limit of one, the responses come in the order of the requests. */
  lemma {:induction false} OneWorkerKeepsOrder(jobs: seq<Job>, steps: seq<Step>)
    requires ValidRun(jobs, StartPool(1), steps)
    ensures Finished(Run(jobs, StartPool(1), steps)) ==>
              Run(jobs, StartPool(1), steps).responses == InOrder(jobs, |jobs|)
  {
    RunKeepsOrderly(jobs, StartPool(1), steps);
  }

  lemma {:induction false} RunKeepsOrderly(jobs: seq<Job>, p: Pool, steps: seq<Step>)
    requires Orderly(jobs, p) && ValidRun(jobs, p, steps)
    ensures Orderly(jobs, Run(jobs, p, steps))
    decreases |steps|
  {
    hide Orderly, Next, Enabled;
    if steps != [] {
      StepKeepsOrderly(jobs, p, steps[0]);
      RunKeepsOrderly(jobs, Next(jobs, p, steps[0]), steps[1..]);
    }
  }

  /** A pool that can do nothing but is not finished. */
  ghost predicate Stuck(jobs: seq<Job>, p: Pool) {
    !Finished(p) && forall st :: !Enabled(jobs, p, st)
  }

  /** Some run of the pool comes to where nothing more can be done. */
  ghost predicate CanBlock(jobs: seq<Job>, p: Pool) {
    exists steps :: ValidRun(jobs, p, steps) && Stuck(jobs, Run(jobs, p, steps))
  }

  /** A parallel limit of zero starts no worker; a non-empty batch then blocks on its first request.
      So the parallel mode can block exactly when the limit is zero and there is something to do. */
  lemma BlocksIffNoWorker(jobs: seq<Job>, maxParallel: nat, width: nat)
    requires width <= |jobs| && width <= maxParallel && (width == |jobs| || width == maxParallel)
    ensures CanBlock(jobs, StartPool(width)) <==> maxParallel == 0 && jobs != []
  {
    var start := StartPool(width);
    if maxParallel == 0 && jobs != [] {
      assert ValidRun(jobs, start, []) && Stuck(jobs, Run(jobs, start, []));
    } else {
      forall steps | ValidRun(jobs, start, steps)
        ensures !Stuck(jobs, Run(jobs, start, steps))
      {
        ParallelBatch(jobs, maxParallel, width, steps);
      }
    }
  }

  /** doBatch. */
  method DoBatch(jobs: seq<Job>, maxBatchSize: nat, maxParallel: nat, sync: bool) returns (responses: seq<Response>)
    requires maxParallel > 0 || sync || jobs == [] || |jobs| > maxBatchSize
    ensures |jobs| > maxBatchSize ==> responses == []
    ensures |jobs| <= maxBatchSize ==> multiset(responses) == multiset(InOrder(jobs, |jobs|))
    ensures |jobs| <= maxBatchSize && sync ==> responses == InOrder(jobs, |jobs|)
  {
    if |jobs| > maxBatchSize {
      // The error response carries no id, so append drops it.
      return Append([], MakeErrorResponse(None, INVALID_REQUEST, "batch size exceeded"));
    }
    if sync {
      responses := DoBatchSync(jobs);
      return;
    }
    responses := RunPool(jobs, BatchWidth(jobs, maxParallel));
    InOrderIsOwed(jobs, |jobs|);
  }

  /** The goroutines under any scheduler: which step comes next is an arbitrary choice. */
  method RunPool(jobs: seq<Job>, width: nat) returns (responses: seq<Response>)
    requires width > 0 || jobs == []
    ensures multiset(responses) == Owed(jobs, |jobs|)
  {
    hide Next, Conserved;
    var p := StartPool(width);
    StartInv(jobs, width);
    while !Finished(p)
      invariant Inv(jobs, p) && |p.workers| == width
      decreases Fuel(jobs, p)
    {
      ghost var possible := NoDeadlock(jobs, p);
      var st :| Enabled(jobs, p, st);
      StepKeepsInv(jobs, p, st);
      StepBurnsFuel(jobs, p, st);
      p := Next(jobs, p, st);
    }
    FinishedGivesOwed(jobs, p);
    return p.responses;
  }
}
