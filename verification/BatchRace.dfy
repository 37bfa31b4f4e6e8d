/** The parallel batch with the append as it is compiled: no lock, so reading the length of the shared
    slice, writing the slot and writing the length back are separate steps. */
module BatchRace {
  import opened Wrappers
  import opened Sums
  import opened Sets

  datatype Worker =
    | Idle
    | Busy(index: nat)
    | Read(index: nat, at: nat)   // has read the length `at`
    | Wrote(index: nat, at: nat)  // has stored its response in slot `at`
    | Exited
  {
    predicate Holding() {
      Busy? || Read? || Wrote?
    }
  }

  /** `hasId[i]` says whether request `i` carries an id. The channel holds requests head..next; a slot
      holds the position of the request its response answers. */
  datatype Pool = Pool(
    head: nat,
    next: nat,
    closed: bool,
    workers: seq<Worker>,
    slots: seq<Option<nat>>,
    length: nat,
    done: set<nat>)  // requests whose append is complete

  datatype Step =
    | Feed
    | Close
    | Take(worker: nat)
    | Skip(worker: nat)
    | ReadLength(worker: nat)
    | WriteSlot(worker: nat)
    | WriteLength(worker: nat)
    | Exit(worker: nat)

  function StartPool(n: nat, width: nat): Pool {
    Pool(0, 0, false, seq(width, _ => Idle), seq(n, _ => None), 0, {})
  }

  predicate Enabled(hasId: seq<bool>, p: Pool, st: Step) {
    match st
    case Feed => p.next < |hasId| && p.next - p.head < |p.workers|
    case Close => p.next == |hasId| && !p.closed
    case Take(w) => w < |p.workers| && p.workers[w] == Idle && p.head < p.next
    case Skip(w) =>
      w < |p.workers| && p.workers[w].Busy? && p.workers[w].index < |hasId| && !hasId[p.workers[w].index]
    case ReadLength(w) =>
      w < |p.workers| && p.workers[w].Busy? && p.workers[w].index < |hasId| && hasId[p.workers[w].index]
    case WriteSlot(w) => w < |p.workers| && p.workers[w].Read? && p.workers[w].at < |p.slots|
    case WriteLength(w) => w < |p.workers| && p.workers[w].Wrote?
    case Exit(w) => w < |p.workers| && p.workers[w] == Idle && p.head == p.next && p.closed
  }

  function Next(hasId: seq<bool>, p: Pool, st: Step): Pool
    requires Enabled(hasId, p, st)
  {
    match st
    case Feed => p.(next := p.next + 1)
    case Close => p.(closed := true)
    case Take(w) => p.(workers := p.workers[w := Busy(p.head)], head := p.head + 1)
    case Skip(w) => p.(workers := p.workers[w := Idle])
    case ReadLength(w) => p.(workers := p.workers[w := Read(p.workers[w].index, p.length)])
    case WriteSlot(w) =>
      var Read(i, at) := p.workers[w];
      p.(slots := p.slots[at := Some(i)], workers := p.workers[w := Wrote(i, at)])
    case WriteLength(w) =>
      var Wrote(i, at) := p.workers[w];
      p.(length := at + 1, done := p.done + {i}, workers := p.workers[w := Idle])
    case Exit(w) => p.(workers := p.workers[w := Exited])
  }

  predicate Finished(p: Pool) {
    p.closed && forall w :: 0 <= w < |p.workers| ==> p.workers[w] == Exited
  }

  predicate ValidRun(hasId: seq<bool>, p: Pool, steps: seq<Step>)
    decreases |steps|
  {
    steps == [] || (Enabled(hasId, p, steps[0]) && ValidRun(hasId, Next(hasId, p, steps[0]), steps[1..]))
  }

  function Run(hasId: seq<bool>, p: Pool, steps: seq<Step>): Pool
    requires ValidRun(hasId, p, steps)
    decreases |steps|
  {
    if steps == [] then p else Run(hasId, Next(hasId, p, steps[0]), steps[1..])
  }

  /** The requests that are owed a response. */
  ghost function Ids(hasId: seq<bool>): set<nat> {
    set i: nat | i < |hasId| && hasId[i]
  }

  // ---- the invariant ----

  ghost predicate Shape(hasId: seq<bool>, p: Pool) {
    && p.head <= p.next <= |hasId| == |p.slots|
    && p.next - p.head <= |p.workers|
    && (p.closed ==> p.next == |hasId|)
    && (Exited in p.workers ==> p.closed && p.head == p.next)
  }

  /** Requests taken from the channel are with one worker or done, and not both. */
  ghost predicate Owned(hasId: seq<bool>, p: Pool) {
    && (forall i :: i in p.done ==> i < p.head && i in Ids(hasId))
    && (forall w :: 0 <= w < |p.workers| && p.workers[w].Holding() ==>
          p.workers[w].index < p.head && p.workers[w].index !in p.done)
    && (forall w, v :: 0 <= w < v < |p.workers| && p.workers[w].Holding() && p.workers[v].Holding() ==>
          p.workers[w].index != p.workers[v].index)
    && (forall w :: 0 <= w < |p.workers| && (p.workers[w].Read? || p.workers[w].Wrote?) ==>
          p.workers[w].index in Ids(hasId))
  }

  /** No request with an id is forgotten by the workers. */
  ghost predicate Covered(hasId: seq<bool>, p: Pool) {
    forall i :: i in Ids(hasId) && i < p.head && i !in p.done ==> Served(p, i)
  }

  ghost predicate Served(p: Pool, i: nat) {
    exists w :: 0 <= w < |p.workers| && p.workers[w].Holding() && p.workers[w].index == i
  }

  /** Lengths, stored or just read, never run ahead of the completed appends. */
  ghost predicate Lengths(p: Pool) {
    && p.length <= |p.done|
    && (p.done != {} ==> p.length > 0)
    && (forall w :: 0 <= w < |p.workers| && (p.workers[w].Read? || p.workers[w].Wrote?) ==>
          p.workers[w].at <= |p.done|)
  }

  ghost predicate Filled(slots: seq<Option<nat>>, n: nat) {
    n <= |slots| && forall k :: 0 <= k < n ==> slots[k].Some?
  }

  /** No hole below any length, stored or just read. */
  ghost predicate NoHoles(p: Pool) {
    && Filled(p.slots, p.length)
    && (forall w :: 0 <= w < |p.workers| && p.workers[w].Read? ==> Filled(p.slots, p.workers[w].at))
    && (forall w :: 0 <= w < |p.workers| && p.workers[w].Wrote? ==> Filled(p.slots, p.workers[w].at + 1))
  }

  /** No request in two slots, nor in a slot before it is written. */
  ghost predicate Apart(hasId: seq<bool>, p: Pool) {
    && (forall k :: 0 <= k < |p.slots| && p.slots[k].Some? ==>
          p.slots[k].value < p.head && p.slots[k].value in Ids(hasId))
    && (forall k, j :: 0 <= k < j < |p.slots| && p.slots[k].Some? ==> p.slots[k] != p.slots[j])
    && (forall w, k :: 0 <= w < |p.workers| && (p.workers[w].Busy? || p.workers[w].Read?) && 0 <= k < |p.slots| ==>
          p.slots[k] != Some(p.workers[w].index))
  }

  ghost predicate Slots(hasId: seq<bool>, p: Pool) {
    NoHoles(p) && Apart(hasId, p)
  }

  ghost predicate Inv(hasId: seq<bool>, p: Pool) {
    Shape(hasId, p) && Owned(hasId, p) && Covered(hasId, p) && Lengths(p) && Slots(hasId, p)
  }

  lemma StartInv(hasId: seq<bool>, width: nat)
    ensures Inv(hasId, StartPool(|hasId|, width))
  {
    assert Exited !in StartPool(|hasId|, width).workers;
  }

  lemma StepKeepsShape(hasId: seq<bool>, p: Pool, st: Step)
    requires Shape(hasId, p) && Enabled(hasId, p, st)
    ensures Shape(hasId, Next(hasId, p, st))
  {
  }

  /** One worker changes what it holds: nothing, a request not taken before, or the same as before. */
  lemma HolderKeepsOwned(hasId: seq<bool>, p: Pool, w: nat, x: Worker, head: nat)
    requires Owned(hasId, p) && w < |p.workers| && head >= p.head
    requires x.Holding() ==> x.index < head
    requires x.Holding() ==> x.index >= p.head || (p.workers[w].Holding() && x.index == p.workers[w].index)
    requires x.Read? || x.Wrote? ==> x.index in Ids(hasId)
    ensures Owned(hasId, p.(workers := p.workers[w := x], head := head))
  {
    hide Ids;
  }

  lemma WriteLengthKeepsOwned(hasId: seq<bool>, p: Pool, w: nat, length: nat)
    requires Owned(hasId, p) && w < |p.workers| && p.workers[w].Wrote?
    ensures Owned(hasId, p.(length := length, done := p.done + {p.workers[w].index}, workers := p.workers[w := Idle]))
  {
    hide Ids;
  }

  lemma StepKeepsOwned(hasId: seq<bool>, p: Pool, st: Step)
    requires Shape(hasId, p) && Owned(hasId, p) && Enabled(hasId, p, st)
    ensures Owned(hasId, Next(hasId, p, st))
  {
    match st {
      case WriteLength(w) => WriteLengthKeepsOwned(hasId, p, w, p.workers[w].at + 1);
      case Take(w) => HolderKeepsOwned(hasId, p, w, Busy(p.head), p.head + 1);
      case Skip(w) => HolderKeepsOwned(hasId, p, w, Idle, p.head);
      case ReadLength(w) => HolderKeepsOwned(hasId, p, w, Read(p.workers[w].index, p.length), p.head);
      case WriteSlot(w) => HolderKeepsOwned(hasId, p, w, Wrote(p.workers[w].index, p.workers[w].at), p.head);
      case Exit(w) => HolderKeepsOwned(hasId, p, w, Exited, p.head);
      case Feed =>
      case Close =>
    }
  }

  lemma StepKeepsCovered(hasId: seq<bool>, p: Pool, st: Step)
    requires Shape(hasId, p) && Covered(hasId, p) && Enabled(hasId, p, st)
    ensures Covered(hasId, Next(hasId, p, st))
  {
    var q := Next(hasId, p, st);
    forall i | i in Ids(hasId) && i < q.head && i !in q.done
      ensures Served(q, i)
    {
      if i < p.head {
        var w :| 0 <= w < |p.workers| && p.workers[w].Holding() && p.workers[w].index == i;
        assert q.workers[w].Holding() && q.workers[w].index == i;
      } else {
        assert q.workers[st.worker].Holding() && q.workers[st.worker].index == i;
      }
    }
  }

  lemma StepKeepsLengths(hasId: seq<bool>, p: Pool, st: Step)
    requires Owned(hasId, p) && Lengths(p) && Enabled(hasId, p, st)
    ensures Lengths(Next(hasId, p, st))
  {
    if st.WriteLength? {
      assert |p.done + {p.workers[st.worker].index}| == |p.done| + 1;
    }
  }

  lemma StepKeepsNoHoles(hasId: seq<bool>, p: Pool, st: Step)
    requires NoHoles(p) && Enabled(hasId, p, st)
    ensures NoHoles(Next(hasId, p, st))
  {
    if st.WriteSlot? {
      var at := p.workers[st.worker].at;
      forall n: nat | Filled(p.slots, n) ensures Filled(Next(hasId, p, st).slots, n) {
      }
      assert Filled(Next(hasId, p, st).slots, at + 1);
      hide Filled;
    }
  }

  lemma WriteSlotKeepsApart(hasId: seq<bool>, p: Pool, st: Step)
    requires Owned(hasId, p) && Apart(hasId, p) && Enabled(hasId, p, st) && st.WriteSlot?
    ensures Apart(hasId, Next(hasId, p, st))
  {
    var i := p.workers[st.worker].index;
    assert i < p.head && i in Ids(hasId);
    assert forall w :: 0 <= w < |p.workers| && w != st.worker && p.workers[w].Holding() ==> p.workers[w].index != i;
    hide Owned, Ids;
  }

  lemma StepKeepsApart(hasId: seq<bool>, p: Pool, st: Step)
    requires Owned(hasId, p) && Apart(hasId, p) && Enabled(hasId, p, st)
    ensures Apart(hasId, Next(hasId, p, st))
  {
    if st.WriteSlot? {
      WriteSlotKeepsApart(hasId, p, st);
    } else {
      hide Owned, Ids;
      assert forall k :: 0 <= k < |p.slots| ==> p.slots[k] != Some(p.head);
    }
  }

  lemma StepKeepsInv(hasId: seq<bool>, p: Pool, st: Step)
    requires Inv(hasId, p) && Enabled(hasId, p, st)
    ensures Inv(hasId, Next(hasId, p, st))
  {
    hide Shape, Owned, Covered, Lengths, NoHoles, Apart, Next, Enabled;
    StepKeepsShape(hasId, p, st);
    StepKeepsOwned(hasId, p, st);
    StepKeepsCovered(hasId, p, st);
    StepKeepsLengths(hasId, p, st);
    StepKeepsNoHoles(hasId, p, st);
    StepKeepsApart(hasId, p, st);
  }

  lemma {:induction false} RunKeepsInv(hasId: seq<bool>, p: Pool, steps: seq<Step>)
    requires Inv(hasId, p) && ValidRun(hasId, p, steps)
    ensures Inv(hasId, Run(hasId, p, steps))
    decreases |steps|
  {
    hide Inv;
    if steps != [] {
      StepKeepsInv(hasId, p, steps[0]);
      RunKeepsInv(hasId, Next(hasId, p, steps[0]), steps[1..]);
    }
  }

  // ---- counting ----

  lemma {:induction false} IdsSize(hasId: seq<bool>)
    ensures |Ids(hasId)| <= |hasId|
  {
    if hasId != [] {
      var n := |hasId| - 1;
      IdsSize(hasId[..n]);
      assert Ids(hasId) == Ids(hasId[..n]) + if hasId[n] then {n} else {};
    }
  }

  /** The preallocated capacity suffices: no worker has ever read a length at or beyond it. */
  lemma NoReallocation(hasId: seq<bool>, p: Pool, w: nat)
    requires Inv(hasId, p) && w < |p.workers| && p.workers[w].Read?
    ensures p.workers[w].at < |p.slots| && Enabled(hasId, p, WriteSlot(w))
  {
    var i := p.workers[w].index;
    assert p.done <= Ids(hasId) && i in Ids(hasId) && i !in p.done;
    SubsetSize(p.done, Ids(hasId));
    IdsSize(hasId);
  }

  /** What a finished batch delivers. */
  function Delivered(p: Pool): seq<Option<nat>>
    requires p.length <= |p.slots|
  {
    p.slots[..p.length]
  }

  /** Every interleaving of the racy appends, at every moment: the length never exceeds the number of requests with
      ids, the channel holds no more than its capacity, no delivered slot is empty, each answers a different request
      that has an id, and once some append is complete something is delivered. */
  lemma RacyBatch(hasId: seq<bool>, width: nat, steps: seq<Step>)
    requires ValidRun(hasId, StartPool(|hasId|, width), steps)
    ensures var p := Run(hasId, StartPool(|hasId|, width), steps);
            && p.length <= |Ids(hasId)| && p.length <= |p.slots| && p.next - p.head <= width
            && (forall k :: 0 <= k < p.length ==> Delivered(p)[k].Some? && Delivered(p)[k].value in Ids(hasId))
            && (forall k, j :: 0 <= k < j < p.length ==> Delivered(p)[k] != Delivered(p)[j])
            && (Finished(p) ==> p.done == Ids(hasId) || width == 0)
            && (Finished(p) && width > 0 && Ids(hasId) != {} ==> p.length > 0)
  {
    var start := StartPool(|hasId|, width);
    StartInv(hasId, width);
    RunKeepsInv(hasId, start, steps);
    WorkersKept(hasId, start, steps);
    var p := Run(hasId, start, steps);
    SubsetSize(p.done, Ids(hasId));
    if Finished(p) && width > 0 {
      assert p.workers[0] in p.workers;
      FinishedDone(hasId, p);
    }
  }

  lemma FinishedDone(hasId: seq<bool>, p: Pool)
    requires Inv(hasId, p) && Finished(p) && p.workers != []
    ensures p.done == Ids(hasId)
  {
    assert p.workers[0] in p.workers;
    assert forall i :: i in Ids(hasId) ==> i in p.done;
  }

  lemma {:induction false} WorkersKept(hasId: seq<bool>, p: Pool, steps: seq<Step>)
    requires ValidRun(hasId, p, steps)
    ensures |Run(hasId, p, steps).workers| == |p.workers|
    decreases |steps|
  {
    if steps != [] {
      WorkersKept(hasId, Next(hasId, p, steps[0]), steps[1..]);
    }
  }

  // ---- when the race loses nothing ----

  /** Whether every finished run delivers a response for every request with an id. */
  ghost predicate Lossless(hasId: seq<bool>, width: nat) {
    forall steps :: ValidRun(hasId, StartPool(|hasId|, width), steps) ==>
      var p := Run(hasId, StartPool(|hasId|, width), steps);
      Finished(p) ==> p.length == |Ids(hasId)|
  }

  /** A single worker always appends at the true end. */
  ghost predicate Alone(p: Pool) {
    && |p.workers| == 1
    && p.length == |p.done|
    && (p.workers[0].Read? || p.workers[0].Wrote? ==> p.workers[0].at == p.length)
  }

  lemma {:induction false} StaysAlone(hasId: seq<bool>, p: Pool, steps: seq<Step>)
    requires Inv(hasId, p) && Alone(p) && ValidRun(hasId, p, steps)
    ensures Alone(Run(hasId, p, steps))
    decreases |steps|
  {
    if steps != [] {
      var st := steps[0];
      StepKeepsInv(hasId, p, st);
      if st.WriteLength? {
        assert |p.done + {p.workers[0].index}| == |p.done| + 1;
      }
      StaysAlone(hasId, Next(hasId, p, st), steps[1..]);
    }
  }

  lemma LosslessAlone(hasId: seq<bool>, steps: seq<Step>)
    requires ValidRun(hasId, StartPool(|hasId|, 1), steps)
    ensures var p := Run(hasId, StartPool(|hasId|, 1), steps);
            Finished(p) ==> p.length == |Ids(hasId)|
  {
    StartInv(hasId, 1);
    StaysAlone(hasId, StartPool(|hasId|, 1), steps);
    RacyBatch(hasId, 1, steps);
  }

  // ---- a run that loses responses ----

  ghost predicate Leads(hasId: seq<bool>, p: Pool, q: Pool) {
    exists steps :: ValidRun(hasId, p, steps) && Run(hasId, p, steps) == q
  }

  lemma LeadsStep(hasId: seq<bool>, p: Pool, st: Step)
    requires Enabled(hasId, p, st)
    ensures Leads(hasId, p, Next(hasId, p, st))
  {
    assert ValidRun(hasId, Next(hasId, p, st), [st][1..]);
    assert ValidRun(hasId, p, [st]) && Run(hasId, p, [st]) == Next(hasId, p, st);
  }

  lemma {:induction false} RunConcat(hasId: seq<bool>, p: Pool, a: seq<Step>, b: seq<Step>)
    requires ValidRun(hasId, p, a) && ValidRun(hasId, Run(hasId, p, a), b)
    ensures ValidRun(hasId, p, a + b) && Run(hasId, p, a + b) == Run(hasId, Run(hasId, p, a), b)
    decreases |a|
  {
    if a == [] {
      assert a + b == b;
    } else {
      assert (a + b)[1..] == a[1..] + b;
      RunConcat(hasId, Next(hasId, p, a[0]), a[1..], b);
    }
  }

  lemma LeadsTrans(hasId: seq<bool>, p: Pool, q: Pool, r: Pool)
    requires Leads(hasId, p, q) && Leads(hasId, q, r)
    ensures Leads(hasId, p, r)
  {
    var a :| ValidRun(hasId, p, a) && Run(hasId, p, a) == q;
    var b :| ValidRun(hasId, q, b) && Run(hasId, q, b) == r;
    RunConcat(hasId, p, a, b);
  }

  /** One more step of a run under construction. */
  lemma Then(hasId: seq<bool>, start: Pool, p: Pool, st: Step) returns (q: Pool)
    requires Inv(hasId, p) && Leads(hasId, start, p) && Enabled(hasId, p, st)
    ensures q == Next(hasId, p, st) && Inv(hasId, q) && Leads(hasId, start, q)
  {
    hide Inv, Leads;
    q := Next(hasId, p, st);
    StepKeepsInv(hasId, p, st);
    LeadsStep(hasId, p, st);
    LeadsTrans(hasId, start, p, q);
  }

  /** The next request is fed and taken by worker `w`. */
  lemma Fetch(hasId: seq<bool>, start: Pool, p: Pool, w: nat) returns (q: Pool)
    requires Inv(hasId, p) && Leads(hasId, start, p)
    requires w < |p.workers| && p.workers[w] == Idle && p.head == p.next < |hasId| && !p.closed
    ensures Inv(hasId, q) && Leads(hasId, start, q)
    ensures q == p.(head := p.head + 1, next := p.head + 1, workers := p.workers[w := Busy(p.head)])
  {
    hide Inv, Leads;
    q := Then(hasId, start, p, Feed);
    q := Then(hasId, start, q, Take(w));
  }

  /** Worker `w` completes an append whose length it has read. */
  lemma Complete(hasId: seq<bool>, start: Pool, p: Pool, w: nat) returns (q: Pool)
    requires Inv(hasId, p) && Leads(hasId, start, p) && w < |p.workers| && p.workers[w].Read?
    ensures Inv(hasId, q) && Leads(hasId, start, q)
    ensures q.workers == p.workers[w := Idle] && q.length == p.workers[w].at + 1
    ensures q.head == p.head && q.next == p.next && q.closed == p.closed
  {
    hide Inv, Leads;
    NoReallocation(hasId, p, w);
    q := Then(hasId, start, p, WriteSlot(w));
    q := Then(hasId, start, q, WriteLength(w));
  }

  /** Worker 0 serves the next request from feeding to the end, with the other workers standing still. */
  lemma ServeNext(hasId: seq<bool>, start: Pool, p: Pool) returns (q: Pool)
    requires Inv(hasId, p) && Leads(hasId, start, p)
    requires p.workers != [] && p.workers[0] == Idle && p.head == p.next < |hasId| && !p.closed
    ensures Inv(hasId, q) && Leads(hasId, start, q)
    ensures q.head == q.next == p.head + 1 && !q.closed && q.workers == p.workers
    ensures !hasId[p.head] ==> q.length == p.length
  {
    hide Inv, Leads;
    q := Fetch(hasId, start, p, 0);
    if hasId[p.head] {
      q := Then(hasId, start, q, ReadLength(0));
      q := Complete(hasId, start, q, 0);
    } else {
      q := Then(hasId, start, q, Skip(0));
    }
    assert q.workers == p.workers;
  }

  lemma ServeUpTo(hasId: seq<bool>, start: Pool, p: Pool, n: nat) returns (q: Pool)
    requires Inv(hasId, p) && Leads(hasId, start, p)
    requires p.workers != [] && p.workers[0] == Idle && p.head == p.next <= n <= |hasId| && !p.closed
    ensures Inv(hasId, q) && Leads(hasId, start, q)
    ensures q.head == q.next == n && !q.closed && q.workers == p.workers
    ensures (forall i :: p.head <= i < n ==> !hasId[i]) ==> q.length == p.length
  {
    hide Inv, Leads;
    q := p;
    while q.head < n
      invariant Inv(hasId, q) && Leads(hasId, start, q)
      invariant p.head <= q.head == q.next <= n && !q.closed && q.workers == p.workers
      invariant (forall i :: p.head <= i < q.head ==> !hasId[i]) ==> q.length == p.length
    {
      q := ServeNext(hasId, start, q);
    }
  }

  lemma ExitAll(hasId: seq<bool>, start: Pool, p: Pool) returns (q: Pool)
    requires Inv(hasId, p) && Leads(hasId, start, p) && p.closed && p.head == p.next
    requires forall w :: 0 <= w < |p.workers| ==> p.workers[w] == Idle
    ensures Leads(hasId, start, q) && Finished(q) && q.length == p.length
  {
    hide Inv, Leads;
    q := p;
    var n := 0;
    while n < |p.workers|
      invariant n <= |p.workers| == |q.workers|
      invariant Inv(hasId, q) && Leads(hasId, start, q) && q.closed && q.head == q.next && q.length == p.length
      invariant forall w :: 0 <= w < n ==> q.workers[w] == Exited
      invariant forall w :: n <= w < |p.workers| ==> q.workers[w] == Idle
    {
      q := Then(hasId, start, q, Exit(n));
      n := n + 1;
    }
  }

  /** Two workers and two ids: worker 1 reads the length before anybody appends, worker 0 serves all the
      other requests, and then worker 1 overwrites slot 0 and sets the length back to one. */
  lemma LosingRun(hasId: seq<bool>, width: nat) returns (q: Pool)
    requires width >= 2 && Ids(hasId) != {}
    ensures Leads(hasId, StartPool(|hasId|, width), q) && Finished(q) && q.length == 1
  {
    var start := StartPool(|hasId|, width);
    q := HoldBack(hasId, width);
    hide Inv, Leads;
    q := ServeUpTo(hasId, start, q, |hasId|);
    q := Complete(hasId, start, q, 1);
    q := Then(hasId, start, q, Close);
    q := ExitAll(hasId, start, q);
  }

  /** Up to the moment when worker 1 has read the length 0 for the first request with an id. */
  lemma HoldBack(hasId: seq<bool>, width: nat) returns (q: Pool)
    requires width >= 2 && Ids(hasId) != {}
    ensures Inv(hasId, q) && Leads(hasId, StartPool(|hasId|, width), q)
    ensures |q.workers| == width && q.workers[1].Read? && q.workers[1].at == 0
    ensures forall w :: 0 <= w < width && w != 1 ==> q.workers[w] == Idle
    ensures q.head == q.next <= |hasId| && !q.closed
  {
    hide Inv, Leads, Next, Ids;
    var first := FirstId(hasId);
    var start := StartPool(|hasId|, width);
    StartLeads(hasId, width);
    q := ServeUpTo(hasId, start, start, first);
    q := Fetch(hasId, start, q, 1);
    q := ReadBy(hasId, start, q, 1);
  }

  lemma StartLeads(hasId: seq<bool>, width: nat)
    ensures var start := StartPool(|hasId|, width); Inv(hasId, start) && Leads(hasId, start, start)
  {
    hide Inv;
    var start := StartPool(|hasId|, width);
    StartInv(hasId, width);
    assert ValidRun(hasId, start, []) && Run(hasId, start, []) == start;
  }

  /** Worker `w` reads the length for the request it holds. */
  lemma ReadBy(hasId: seq<bool>, start: Pool, p: Pool, w: nat) returns (q: Pool)
    requires Inv(hasId, p) && Leads(hasId, start, p) && Enabled(hasId, p, ReadLength(w))
    ensures Inv(hasId, q) && Leads(hasId, start, q)
    ensures q == p.(workers := p.workers[w := Read(p.workers[w].index, p.length)])
  {
    hide Inv, Leads;
    q := Then(hasId, start, p, ReadLength(w));
  }

  lemma FirstId(hasId: seq<bool>) returns (first: nat)
    requires Ids(hasId) != {}
    ensures first < |hasId| && hasId[first] && forall i :: 0 <= i < first ==> !hasId[i]
  {
    var some :| some in Ids(hasId);
    first := 0;
    while !hasId[first]
      invariant first <= some < |hasId| && hasId[some]
      invariant forall i :: 0 <= i < first ==> !hasId[i]
      decreases some - first
    {
      first := first + 1;
    }
  }

  /** The unlocked append is harmless exactly when there is a single worker or at most one request with
      an id. */
  lemma LosslessIff(hasId: seq<bool>, width: nat)
    requires width > 0
    ensures Lossless(hasId, width) <==> width == 1 || |Ids(hasId)| <= 1
  {
    var start := StartPool(|hasId|, width);
    if width > 1 && |Ids(hasId)| > 1 {
      var q := LosingRun(hasId, width);
      var steps :| ValidRun(hasId, start, steps) && Run(hasId, start, steps) == q;
    } else {
      forall steps | ValidRun(hasId, start, steps)
        ensures var p := Run(hasId, start, steps); Finished(p) ==> p.length == |Ids(hasId)|
      {
        if width == 1 {
          LosslessAlone(hasId, steps);
        } else {
          RacyBatch(hasId, width, steps);
        }
      }
    }
  }

  // ---- progress and termination ----

  function Effort(w: Worker): nat {
    match w
    case Exited => 0
    case Idle => 1
    case Wrote(_, _) => 2
    case Read(_, _) => 3
    case Busy(_) => 4
  }

  ghost function Work(workers: seq<Worker>): nat {
    Sum(workers, Effort)
  }

  /** How many steps a pool can still take. */
  ghost function Fuel(hasId: seq<bool>, p: Pool): int {
    5 * (|hasId| - p.next) + 4 * (p.next - p.head) + (if p.closed then 0 else 1) + Work(p.workers)
  }

  lemma StepBurnsFuel(hasId: seq<bool>, p: Pool, st: Step)
    requires Enabled(hasId, p, st)
    ensures Fuel(hasId, Next(hasId, p, st)) < Fuel(hasId, p)
    ensures |Next(hasId, p, st).workers| == |p.workers|
  {
    hide Sum;
    var q := Next(hasId, p, st);
    if !st.Feed? && !st.Close? {
      var w := st.worker;
      assert q.workers == p.workers[w := q.workers[w]];
      SumUpdate(p.workers, w, q.workers[w], Effort);
    }
  }

  /** A pool with a worker is finished or can take a step, also between the steps of appends. */
  lemma NoDeadlock(hasId: seq<bool>, p: Pool) returns (st: Step)
    requires Inv(hasId, p) && !Finished(p) && p.workers != []
    ensures Enabled(hasId, p, st)
  {
    assert p.workers[0] in p.workers;
    if w :| 0 <= w < |p.workers| && p.workers[w].Holding() {
      st := HolderMoves(hasId, p, w);
    } else if idle :| 0 <= idle < |p.workers| && p.workers[idle] == Idle {
      hide Owned, Covered, Lengths, NoHoles, Apart;
      st := if p.head < p.next then Take(idle)
            else if p.next < |hasId| then Feed
            else if !p.closed then Close
            else Exit(idle);
    } else {
      assert false;
    }
  }

  lemma HolderMoves(hasId: seq<bool>, p: Pool, w: nat) returns (st: Step)
    requires Inv(hasId, p) && w < |p.workers| && p.workers[w].Holding()
    ensures Enabled(hasId, p, st)
  {
    match p.workers[w]
    case Busy(i) => st := if hasId[i] then ReadLength(w) else Skip(w);
    case Read(_, _) =>
      st := WriteSlot(w);
      NoReallocation(hasId, p, w);
    case Wrote(_, _) => st := WriteLength(w);
  }

  lemma {:induction false} RunBurnsFuel(hasId: seq<bool>, p: Pool, steps: seq<Step>)
    requires Inv(hasId, p) && ValidRun(hasId, p, steps)
    ensures |steps| + Fuel(hasId, Run(hasId, p, steps)) <= Fuel(hasId, p)
    decreases |steps|
  {
    hide Inv, Fuel, Next, Enabled;
    if steps != [] {
      StepKeepsInv(hasId, p, steps[0]);
      StepBurnsFuel(hasId, p, steps[0]);
      RunBurnsFuel(hasId, Next(hasId, p, steps[0]), steps[1..]);
    }
  }

  /** Every interleaving of the split appends takes a bounded number of steps, and as long as it is not finished
      it can take one: so every run can be completed, and none goes on for ever. */
  lemma RacyBatchEnds(hasId: seq<bool>, width: nat, steps: seq<Step>)
    requires width > 0 && ValidRun(hasId, StartPool(|hasId|, width), steps)
    ensures var p := Run(hasId, StartPool(|hasId|, width), steps);
            && |steps| <= 5 * |hasId| + 1 + width
            && (!Finished(p) ==> exists st :: Enabled(hasId, p, st))
  {
    var start := StartPool(|hasId|, width);
    var p := Run(hasId, start, steps);
    StartInv(hasId, width);
    RunKeepsInv(hasId, start, steps);
    RunBurnsFuel(hasId, start, steps);
    WorkersKept(hasId, start, steps);
    SumOfOnes(width, Idle, Effort);
    assert 0 <= Fuel(hasId, p);
    if !Finished(p) {
      hide Inv, Enabled;
      var st := NoDeadlock(hasId, p);
    }
  }
}
