/** Which objects are being expanded: none is followed inside its own expansion. */
module Nesting {
  import opened Wrappers
  import opened Heaps
  import opened Printer

  /** The objects that a reader of the output finds open, the latest first; None if some object was entered
      while it was open, or more were left than entered. */
  function Scan(out: seq<Chunk>): Option<seq<nat>> {
    if out == [] then Some([])
    else
      var last, before := out[|out| - 1], Scan(out[..|out| - 1]);
      if before.None? then None
      else
        match last
        case Into(a) => if a in before.value then None else Some([a] + before.value)
        case Back(n) => if n <= |before.value| then Some(before.value[n..]) else None
        case _ => before
  }

  lemma ScanPut(out: seq<Chunk>, c: Chunk)
    requires Scan(out).Some?
    ensures !c.Into? && !c.Back? ==> Scan(out + [c]) == Scan(out)
    ensures c.Into? && c.addr !in Scan(out).value ==> Scan(out + [c]) == Some([c.addr] + Scan(out).value)
    ensures c.Back? && c.count <= |Scan(out).value| ==> Scan(out + [c]) == Some(Scan(out).value[c.count..])
  {
    assert (out + [c])[..|out|] == out;
  }

  /** The objects that a task leaves when it is done. */
  function OpenBy(t: Task): seq<nat> {
    if t.Chase? || t.Return? then t.chain else []
  }

  function OpenOf(tasks: seq<Task>): seq<nat> {
    if tasks == [] then [] else OpenBy(tasks[0]) + OpenOf(tasks[1..])
  }

  /** The address of every object in `open` is in the table, at a depth below `d`. */
  ghost predicate AllBelow(j: Job, open: seq<nat>, pointers: map<nat, int>, d: int) {
    forall a :: a in open ==> j.at(a) in pointers && pointers[j.at(a)] < d
  }

  predicate Pointer(v: Value) {
    v.Ptr? || v.NilPtr?
  }

  /** What a task may rely on: the objects open around it are in the table, below the depth it runs at if it
      may come to a pointer. */
  ghost predicate Guarded(j: Job, t: Task, open: seq<nat>, depth: int, pointers: map<nat, int>) {
    match t
    case Part(_, _, _) => AllBelow(j, open, pointers, depth)
    case Show(v, _) => AllBelow(j, open, pointers, if Pointer(v) then depth else depth + 1)
    case Chase(_, _, chain) =>
      AllBelow(j, open, pointers, depth) && AllBelow(j, chain, pointers, depth + 1)
    case _ => true
  }

  /** Every task on the stack is guarded at the depth at which its turn will come, or a larger one. */
  ghost predicate Ready(j: Job, tasks: seq<Task>, depth: int, pointers: map<nat, int>)
    decreases |tasks|
  {
    tasks == [] ||
    (&& Guarded(j, tasks[0], OpenOf(tasks[1..]), depth, pointers)
     && Ready(j, tasks[1..], if tasks[0].Leave? then depth - 1 else depth, pointers))
  }

  ghost predicate Nested(j: Job, c: Config) {
    && Scan(c.s.out) == Some(OpenOf(c.tasks))
    && Ready(j, c.tasks, c.s.depth, c.s.pointers)
    && forall a :: a in OpenOf(c.tasks) ==> a in j.heap
  }

  /** A larger depth, and a table that agrees on the open objects, serve as well. */
  lemma {:induction false} ReadyStays(j: Job, tasks: seq<Task>, d: int, p: map<nat, int>, d': int,
                                      p': map<nat, int>)
    requires Ready(j, tasks, d, p) && d <= d'
    requires forall a :: a in OpenOf(tasks) && j.at(a) in p ==> j.at(a) in p' && p'[j.at(a)] == p[j.at(a)]
    ensures Ready(j, tasks, d', p')
    decreases |tasks|
  {
    if tasks != [] {
      var t, rest := tasks[0], tasks[1..];
      assert OpenOf(tasks) == OpenBy(t) + OpenOf(rest);
      ReadyStays(j, rest, if t.Leave? then d - 1 else d, p, if t.Leave? then d' - 1 else d', p');
    }
  }

  /** Tasks that are text, counts or parts open nothing. */
  ghost predicate Plain(ts: seq<Task>) {
    forall t :: t in ts ==> t.Say? || t.Count? || t.Part?
  }

  lemma {:induction false} ReadyParts(j: Job, ts: seq<Task>, tail: seq<Task>, d: int, p: map<nat, int>)
    requires Plain(ts) && Ready(j, tail, d, p) && AllBelow(j, OpenOf(tail), p, d)
    ensures Ready(j, ts + tail, d, p) && OpenOf(ts + tail) == OpenOf(tail)
    decreases |ts|
  {
    if ts == [] {
      assert ts + tail == tail;
    } else {
      assert (ts + tail)[1..] == ts[1..] + tail && ts[0] in ts;
      ReadyParts(j, ts[1..], tail, d, p);
      assert OpenBy(ts[0]) == [];
    }
  }

  /** Nested, with the first task apart. */
  ghost predicate NestedTop(j: Job, s: State, t: Task, rest: seq<Task>) {
    && Scan(s.out) == Some(OpenBy(t) + OpenOf(rest))
    && Guarded(j, t, OpenOf(rest), s.depth, s.pointers)
    && Ready(j, rest, if t.Leave? then s.depth - 1 else s.depth, s.pointers)
    && (forall a :: a in OpenBy(t) + OpenOf(rest) ==> a in j.heap)
  }

  lemma TopOfNested(j: Job, s: State, t: Task, rest: seq<Task>)
    ensures Nested(j, Config(s, [t] + rest)) <==> NestedTop(j, s, t, rest)
  {
    assert ([t] + rest)[1..] == rest;
  }

  lemma PutTypeQuiet(j: Job, s: State, stars: nat, name: string)
    requires Scan(s.out).Some?
    ensures Scan(PutType(j, s, stars, name).out) == Scan(s.out)
  {
    hide Scan;
    if j.sharp && !s.ignoreType {
      ScanPut(s.out, Text("(" + Stars(stars) + name + ")"));
    }
  }

  /** A task that only writes text and is done. */
  lemma QuietNested(j: Job, s: State, t: Task, rest: seq<Task>, s': State)
    requires NestedTop(j, s, t, rest) && OpenBy(t) == [] && !t.Leave?
    requires Scan(s'.out) == Scan(s.out) && s'.depth == s.depth && s'.pointers == s.pointers
    ensures Nested(j, Config(s', [] + rest))
  {
    assert [] + rest == rest;
    assert OpenBy(t) + OpenOf(rest) == OpenOf(rest);
  }

  lemma PointerNested(j: Job, s: State, v: Value, l: nat, rest: seq<Task>)
    requires NestedTop(j, s, Show(v, l), rest) && Pointer(v)
    ensures var (s', ts) := DoShow(j, s, v, l); Nested(j, Config(s', ts + rest))
  {
    hide Ready, OpenOf, Scan;
    var s0 := Put(s, At(v, l));
    ScanPut(s.out, At(v, l));
    if v.NilPtr? && (!j.sharp || s.ignoreType) {
      ScanPut(s0.out, Text("<nil>"));
      QuietNested(j, s, Show(v, l), rest, Put(s0, Text("<nil>")));
    } else {
      var p := Pruned(s.pointers, s.depth);
      ReadyStays(j, rest, s.depth, s.pointers, s.depth, p);
      TopOfNested(j, s0.(pointers := p), Chase(v, l, []), rest);
    }
  }

  lemma LeafNested(j: Job, s: State, v: Value, l: nat, rest: seq<Task>)
    requires NestedTop(j, s, Show(v, l), rest) && !Pointer(v) && !Composite(v)
    ensures var (s', ts) := DoShow(j, s, v, l); Nested(j, Config(s', ts + rest))
  {
    hide Ready, OpenOf, Scan;
    var s0 := Put(s, At(v, l));
    ScanPut(s.out, At(v, l));
    PutTypeQuiet(j, s0, 0, j.typeName(v));
    var s1 := PutType(j, s0, 0, j.typeName(v)).(ignoreType := false);
    ScanPut(s1.out, Text(if v.Leaf? then v.text else "<nil>"));
    QuietNested(j, s, Show(v, l), rest, DoShow(j, s, v, l).0);
  }

  lemma CompositeQuiet(j: Job, s: State, v: Value, l: nat)
    requires Composite(v) && Scan(s.out).Some?
    ensures var s' := DoShow(j, s, v, l).0;
            Scan(s'.out) == Scan(s.out) && s'.depth == s.depth + 1 && s'.pointers == s.pointers
    ensures DoShow(j, s, v, l).1 == ContentTasks(j, v, l + 1, s.depth + 1)
  {
    hide Scan, ContentTasks;
    var s0 := Put(s, At(v, l));
    ScanPut(s.out, At(v, l));
    PutTypeQuiet(j, s0, 0, j.typeName(v));
    var s1 := PutType(j, s0, 0, j.typeName(v)).(ignoreType := false);
    ScanPut(s1.out, Open(BracketOf(v)));
  }

  lemma CompositeNested(j: Job, s: State, v: Value, l: nat, rest: seq<Task>)
    requires NestedTop(j, s, Show(v, l), rest) && Composite(v)
    ensures var (s', ts) := DoShow(j, s, v, l); Nested(j, Config(s', ts + rest))
  {
    hide Scan, Ready, OpenOf, ContentTasks, DoShow;
    CompositeQuiet(j, s, v, l);
    assert OpenBy(Show(v, l)) + OpenOf(rest) == OpenOf(rest);
    ContentReady(j, v, l + 1, s.depth, s.pointers, rest);
  }

  lemma LeaveReady(j: Job, b: Bracket, d: int, p: map<nat, int>, rest: seq<Task>)
    requires Ready(j, rest, d, p)
    ensures Ready(j, [Leave(b)] + rest, d + 1, p) && OpenOf([Leave(b)] + rest) == OpenOf(rest)
  {
    assert ([Leave(b)] + rest)[1..] == rest;
  }

  lemma PartTasksPlain(j: Job, v: Value, l: nat)
    requires Composite(v)
    ensures Plain(PartTasks(j, v, l))
  {
    hide PartTasks;
    PartTasksShow(j, v, l);
  }

  lemma ContentReady(j: Job, v: Value, l: nat, d: int, p: map<nat, int>, rest: seq<Task>)
    requires Composite(v) && Ready(j, rest, d, p) && AllBelow(j, OpenOf(rest), p, d + 1)
    ensures var ts := ContentTasks(j, v, l, d + 1);
            Ready(j, ts + rest, d + 1, p) && OpenOf(ts + rest) == OpenOf(rest)
  {
    hide Ready, OpenOf, PartTasks, AllBelow;
    var leave := [Leave(BracketOf(v))];
    LeaveReady(j, BracketOf(v), d, p, rest);
    var ts := PartTasks(j, v, l);
    if !Within(j.maxDepth, d + 1) {
      assert [Say("<max>"), Leave(BracketOf(v))] + rest == [Say("<max>")] + (leave + rest);
      ReadyParts(j, [Say("<max>")], leave + rest, d + 1, p);
    } else {
      PartTasksPlain(j, v, l);
      hide Plain;
      if Long(j.heap, v) {
        ReadyStays(j, rest, d, p, d + 1, p);
        ReadyParts(j, ts, rest, d + 1, p);
        assert ts + [] == ts;
      } else {
        ReadyParts(j, ts, leave + rest, d + 1, p);
        assert (ts + leave) + rest == ts + (leave + rest);
      }
    }
  }

  /** An object about to be followed for the first time on a chain is not open: those around the chain are recorded
      below the depth. */
  lemma FollowedIsNew(j: Job, s: State, v: Value, l: nat, chain: seq<nat>, rest: seq<Task>)
    requires NestedTop(j, s, Chase(v, l, chain), rest) && Follows(j, s, v) && v.addr !in chain
    ensures v.addr !in chain + OpenOf(rest)
  {
    hide Ready, OpenOf, Scan;
  }

  lemma ScanFollow(out: seq<Chunk>, a: nat, next: Value, l: nat)
    requires Scan(out).Some? && a !in Scan(out).value
    ensures Scan(out + [Into(a), At(next, l)]) == Some([a] + Scan(out).value)
  {
    hide Scan;
    ScanPut(out, Into(a));
    ScanPut(out + [Into(a)], At(next, l));
    assert out + [Into(a), At(next, l)] == out + [Into(a)] + [At(next, l)];
  }

  lemma FollowNested(j: Job, s: State, v: Value, l: nat, chain: seq<nat>, rest: seq<Task>)
    requires NestedTop(j, s, Chase(v, l, chain), rest) && Follows(j, s, v) && v.addr !in chain
    ensures var (s', ts) := DoChase(j, s, v, l, chain); Nested(j, Config(s', ts + rest))
  {
    hide Ready, OpenOf, Scan;
    var a, open := v.addr, OpenOf(rest);
    var next := Unpack(j.heap[a].value);
    FollowedIsNew(j, s, v, l, chain, rest);
    ScanFollow(s.out, a, next, l);
    hide Nested;
    assert [a] + (chain + open) == ([a] + chain) + open;
    var s' := DoChase(j, s, v, l, chain).0;
    ReadyStays(j, rest, s.depth, s.pointers, s.depth, s'.pointers);
    TopOfNested(j, s', Chase(next, l, [a] + chain), rest);
  }

  /** The tasks left behind once the chain has come to an end. */
  lemma BackNested(j: Job, s: State, v: Value, l: nat, chain: seq<nat>, rest: seq<Task>, s': State)
    requires NestedTop(j, s, Chase(v, l, chain), rest)
    requires Scan(s'.out) == Scan(s.out) && s'.depth == s.depth && s'.pointers == s.pointers
    ensures Nested(j, Config(s', [Return(chain)] + rest))
    ensures OpenOf([Return(chain)] + rest) == chain + OpenOf(rest)
  {
    hide Scan;
    assert ([Return(chain)] + rest)[1..] == rest;
  }

  lemma TargetNested(j: Job, s: State, v: Value, l: nat, chain: seq<nat>, rest: seq<Task>, s': State)
    requires NestedTop(j, s, Chase(v, l, chain), rest) && !Pointer(v)
    requires Scan(s'.out) == Scan(s.out) && s'.depth == s.depth && s'.pointers == s.pointers
    ensures Nested(j, Config(s', [Show(v, l), Return(chain)] + rest))
  {
    BackNested(j, s, v, l, chain, rest, s');
    var back := [Return(chain)] + rest;
    hide Scan, Ready, OpenOf;
    assert [Show(v, l), Return(chain)] + rest == [Show(v, l)] + back;
    assert OpenBy(Show(v, l)) + OpenOf(back) == OpenOf(back);
    TopOfNested(j, s', Show(v, l), back);
  }

  lemma ChaseEndQuiet(j: Job, s: State, v: Value, l: nat, chain: seq<nat>)
    requires Scan(s.out).Some? && !Follows(j, s, v)
    ensures var s' := DoChase(j, s, v, l, chain).0;
            Scan(s'.out) == Scan(s.out) && s'.depth == s.depth && s'.pointers == s.pointers
    ensures DoChase(j, s, v, l, chain).1 == [Return(chain)] ||
            (!Pointer(v) && DoChase(j, s, v, l, chain).1 == [Show(v, l), Return(chain)])
  {
    hide Scan;
    var s1 := PutType(j, s, |chain|, j.typeName(v));
    PutTypeQuiet(j, s, |chain|, j.typeName(v));
    ScanPut(s1.out, Text("<nil>"));
    ScanPut(s1.out, Text("<shown>"));
  }

  lemma ChaseEndNested(j: Job, s: State, v: Value, l: nat, chain: seq<nat>, rest: seq<Task>)
    requires NestedTop(j, s, Chase(v, l, chain), rest) && !Follows(j, s, v)
    ensures var (s', ts) := DoChase(j, s, v, l, chain); Nested(j, Config(s', ts + rest))
  {
    assert Scan(s.out).Some?;
    hide Scan, NestedTop, Nested, DoChase, Follows;
    ChaseEndQuiet(j, s, v, l, chain);
    var s' := DoChase(j, s, v, l, chain).0;
    BackNested(j, s, v, l, chain, rest, s');
    if !Pointer(v) {
      TargetNested(j, s, v, l, chain, rest, s');
    }
  }

  lemma ReturnNested(j: Job, s: State, chain: seq<nat>, rest: seq<Task>)
    requires NestedTop(j, s, Return(chain), rest)
    ensures Nested(j, Config(Put(s, Back(|chain|)), [] + rest))
  {
    hide Scan, Ready, OpenOf;
    ScanPut(s.out, Back(|chain|));
    assert (chain + OpenOf(rest))[|chain|..] == OpenOf(rest);
    assert [] + rest == rest;
  }

  lemma LeaveNested(j: Job, s: State, b: Bracket, rest: seq<Task>)
    requires NestedTop(j, s, Leave(b), rest)
    ensures Nested(j, Config(Put(s, Close(b)).(depth := s.depth - 1), [] + rest))
  {
    hide Scan, Ready, OpenOf;
    ScanPut(s.out, Close(b));
    assert [] + rest == rest;
    assert OpenBy(Leave(b)) + OpenOf(rest) == OpenOf(rest);
  }

  lemma ShowNested(j: Job, s: State, v: Value, l: nat, rest: seq<Task>)
    requires NestedTop(j, s, Show(v, l), rest)
    ensures Nested(j, Config(DoShow(j, s, v, l).0, DoShow(j, s, v, l).1 + rest))
  {
    hide Nested, NestedTop, DoShow;
    if Pointer(v) {
      PointerNested(j, s, v, l, rest);
    } else if Composite(v) {
      CompositeNested(j, s, v, l, rest);
    } else {
      LeafNested(j, s, v, l, rest);
    }
  }

  lemma ChaseNested(j: Job, s: State, v: Value, l: nat, chain: seq<nat>, rest: seq<Task>)
    requires NestedTop(j, s, Chase(v, l, chain), rest) && (v.Ptr? ==> v.addr !in chain)
    ensures Nested(j, Config(DoChase(j, s, v, l, chain).0, DoChase(j, s, v, l, chain).1 + rest))
  {
    hide Nested, NestedTop, DoChase;
    if Follows(j, s, v) {
      FollowNested(j, s, v, l, chain, rest);
    } else {
      ChaseEndNested(j, s, v, l, chain, rest);
    }
  }

  /** The chain has come back to an object on it. */
  predicate Repeats(t: Task) {
    t.Chase? && t.value.Ptr? && t.value.addr in t.chain
  }

  /** Every step keeps the nesting, unless a chain has come back to itself. */
  lemma StepKeepsNested(j: Job, c: Config)
    requires Nested(j, c) && c.tasks != []
    requires !Repeats(c.tasks[0])
    ensures Nested(j, Next(j, c))
  {
    hide Nested, NestedTop, DoShow, DoChase;
    var s, t, rest := c.s, c.tasks[0], c.tasks[1..];
    assert c == Config(s, [t] + rest);
    TopOfNested(j, s, t, rest);
    match t
    case Say(_) => SayNested(j, s, t, rest);
    case Part(u, l, skipType) => PartNested(j, s, u, l, skipType, rest);
    case Show(v, l) => ShowNested(j, s, v, l, rest);
    case Chase(v, l, chain) => ChaseNested(j, s, v, l, chain, rest);
    case Count(_) => SayNested(j, s, t, rest);
    case Leave(b) => LeaveNested(j, s, b, rest);
    case Return(chain) => ReturnNested(j, s, chain, rest);
  }

  lemma SayNested(j: Job, s: State, t: Task, rest: seq<Task>)
    requires NestedTop(j, s, t, rest) && (t.Say? || t.Count?)
    ensures Nested(j, Config(Do(j, s, t).0, Do(j, s, t).1 + rest))
  {
    hide Ready, OpenOf, Scan;
    if t.Say? {
      ScanPut(s.out, Text(t.text));
    } else {
      PutTypeQuiet(j, s, 0, "string");
      ScanPut(PutType(j, s, 0, "string").out, Middle(t.total));
    }
    QuietNested(j, s, t, rest, Do(j, s, t).0);
  }

  lemma PartNested(j: Job, s: State, u: Value, l: nat, skipType: bool, rest: seq<Task>)
    requires NestedTop(j, s, Part(u, l, skipType), rest)
    ensures var (s', ts) := Do(j, s, Part(u, l, skipType)); Nested(j, Config(s', ts + rest))
  {
    hide Ready, OpenOf, Scan;
    TopOfNested(j, Do(j, s, Part(u, l, skipType)).0, Show(Unpack(u), l), rest);
  }

  // ---- chains ----

  /** The object at place `i` of a chain holds a pointer to the one before it in the list, the first holds `v`. */
  ghost predicate Link(heap: Heap, chain: seq<nat>, i: nat, v: Value)
    requires i < |chain|
  {
    Boxed(heap, chain[i]) && Unpack(heap[chain[i]].value) == (if i == 0 then v else Ptr(chain[i - 1]))
  }

  ghost predicate Trail(heap: Heap, chain: seq<nat>, v: Value) {
    forall i: nat :: i < |chain| ==> Link(heap, chain, i, v)
  }

  /** The address of every object on a chain was recorded at the present depth. */
  ghost predicate AllAt(j: Job, chain: seq<nat>, pointers: map<nat, int>, d: int) {
    forall a :: a in chain ==> j.at(a) in pointers && pointers[j.at(a)] == d
  }

  /** Only the first task can be a chase; its chain is a trail recorded at the present depth. */
  ghost predicate Tracked(j: Job, c: Config) {
    c.tasks != [] ==>
      && (forall t :: t in c.tasks[1..] ==> !t.Chase?)
      && (c.tasks[0].Chase? ==>
            && Trail(j.heap, c.tasks[0].chain, c.tasks[0].value)
            && AllAt(j, c.tasks[0].chain, c.s.pointers, c.s.depth))
  }

  lemma TrailLonger(heap: Heap, chain: seq<nat>, a: nat)
    requires Boxed(heap, a) && Trail(heap, chain, Ptr(a))
    ensures Trail(heap, [a] + chain, Unpack(heap[a].value))
  {
    var longer, w := [a] + chain, Unpack(heap[a].value);
    forall i: nat | i < |longer| ensures Link(heap, longer, i, w) {
      if i > 0 {
        assert Link(heap, chain, i - 1, Ptr(a));
      }
    }
  }

  lemma ChaselessTracked(j: Job, s: State, ts: seq<Task>, rest: seq<Task>)
    requires (forall t :: t in ts ==> !t.Chase?) && (forall t :: t in rest ==> !t.Chase?)
    ensures Tracked(j, Config(s, ts + rest))
  {
    var tasks := ts + rest;
    assert forall t :: t in tasks ==> !t.Chase?;
    assert tasks != [] ==> tasks[0] in tasks && forall t :: t in tasks[1..] ==> t in tasks;
  }

  lemma FollowTracked(j: Job, s: State, v: Value, l: nat, chain: seq<nat>, rest: seq<Task>)
    requires Follows(j, s, v) && Trail(j.heap, chain, v) && AllAt(j, chain, s.pointers, s.depth)
    requires forall t :: t in rest ==> !t.Chase?
    ensures Tracked(j, Config(DoChase(j, s, v, l, chain).0, DoChase(j, s, v, l, chain).1 + rest))
  {
    TrailLonger(j.heap, chain, v.addr);
    hide Trail;
    var next := Unpack(j.heap[v.addr].value);
    assert ([Chase(next, l, [v.addr] + chain)] + rest)[1..] == rest;
  }

  lemma ShowTracked(j: Job, s: State, v: Value, l: nat, rest: seq<Task>)
    requires forall t :: t in rest ==> !t.Chase?
    ensures Tracked(j, Config(DoShow(j, s, v, l).0, DoShow(j, s, v, l).1 + rest))
  {
    if Composite(v) {
      PartTasksPlain(j, v, l + 1);
      hide PartTasks;
      ChaselessTracked(j, DoShow(j, s, v, l).0, DoShow(j, s, v, l).1, rest);
    } else if DoShow(j, s, v, l).1 == [] {
      ChaselessTracked(j, DoShow(j, s, v, l).0, [], rest);
    } else {
      assert ([Chase(v, l, [])] + rest)[1..] == rest;
    }
  }

  lemma StepKeepsTracked(j: Job, c: Config)
    requires Tracked(j, c) && c.tasks != []
    ensures Tracked(j, Next(j, c))
  {
    var s, t, rest := c.s, c.tasks[0], c.tasks[1..];
    assert c.tasks == [t] + rest;
    hide DoShow, Trail;
    if t.Show? {
      ShowTracked(j, s, t.value, t.level, rest);
    } else if t.Chase? && Follows(j, s, t.value) {
      FollowTracked(j, s, t.value, t.level, t.chain, rest);
    } else {
      ChaselessTracked(j, Do(j, s, t).0, Do(j, s, t).1, rest);
    }
  }
}
