/** Whole runs of the printer: what the output of a run that ends covers, and what keeps a run from ending. */
module Halting {
  import opened Wrappers
  import opened Heaps
  import opened Printer
  import opened Trace
  import opened Coverage

  // ---- the output of a run that ends covers everything ----

  lemma BeginSound(j: Job, root: Value)
    ensures Sound(j, root, Begin(root)) && Levels(Begin(root).tasks, 0, j.maxDepth != 0)
  {
    RootReached(j.heap, j.maxDepth, root);
    hide Reached;
    assert Begin(root).tasks[1..] == [];
    assert Levels(Begin(root).tasks, 0, false) && Levels(Begin(root).tasks, 0, true);
  }

  lemma {:induction false} RunKeepsSound(j: Job, root: Value, n: nat, c: Config)
    requires Sound(j, root, c)
    ensures Sound(j, root, Run(j, n, c))
    decreases n
  {
    hide Sound, Next;
    if n > 0 && c.tasks != [] {
      StepKeepsSound(j, root, c);
      RunKeepsSound(j, root, n - 1, Next(j, c));
    }
  }

  /** No list is cut short, and none is about to be. */
  ghost predicate Uncut(c: Config) {
    (forall x :: x in c.s.out ==> !x.Middle?) && (forall t :: t in c.tasks ==> !t.Count?)
  }

  lemma StepGrows(j: Job, c: Config)
    requires c.tasks != []
    ensures Grows(c.s.out, Next(j, c).s.out)
  {
    hide DoShow;
    var s, t := c.s, c.tasks[0];
    if t.Show? {
      ShowAdds(j, s, t.value, t.level);
    } else if t.Chase? && !Follows(j, s, t.value) {
      ChaseEndAdds(j, s, t.value, t.level, t.chain);
    }
  }

  lemma {:induction false} RunGrows(j: Job, n: nat, c: Config)
    ensures Grows(c.s.out, Run(j, n, c).s.out)
    decreases n
  {
    hide Next;
    if n > 0 && c.tasks != [] {
      StepGrows(j, c);
      RunGrows(j, n - 1, Next(j, c));
    }
  }

  lemma CountAnnounces(j: Job, c: Config)
    requires c.tasks != [] && c.tasks[0].Count?
    ensures Middle(c.tasks[0].total) in Next(j, c).s.out
  {
  }

  lemma UncutBefore(j: Job, c: Config)
    requires c.tasks != [] && Uncut(Next(j, c))
    ensures Uncut(c)
  {
    StepGrows(j, c);
    hide DoShow, DoChase;
    var t, rest := c.tasks[0], c.tasks[1..];
    assert c.tasks == [t] + rest;
    assert forall u :: u in rest ==> u in Next(j, c).tasks;
    if t.Count? {
      CountAnnounces(j, c);
    }
  }

  lemma {:induction false} UncutAtStart(j: Job, n: nat, c: Config)
    requires Uncut(Run(j, n, c))
    ensures Uncut(c)
    decreases n
  {
    hide Next, Uncut;
    if n > 0 && c.tasks != [] {
      UncutAtStart(j, n - 1, Next(j, c));
      UncutBefore(j, c);
    }
  }

  /** Pointers that are reached and have one address are one pointer. A pointer to a struct and one to its first
      field have one address and are two. */
  ghost predicate OneAddress(j: Job, root: Value) {
    forall a, b, l: nat, m: nat ::
      Reached(j.heap, j.maxDepth, root, Ptr(a), l) && Reached(j.heap, j.maxDepth, root, Ptr(b), m) &&
      Boxed(j.heap, a) && Boxed(j.heap, b) && j.at(a) == j.at(b) ==>
        a == b
  }

  lemma SoundIsUnshared(j: Job, root: Value, c: Config)
    requires Sound(j, root, c) && OneAddress(j, root)
    ensures Unshared(j, c.s.out)
  {
    hide Reached, Levels, SoundTasks;
    forall a, l: nat | At(Ptr(a), l) in c.s.out ensures Reached(j.heap, j.maxDepth, root, Ptr(a), l) {
      assert SoundChunk(j, root, At(Ptr(a), l));
    }
  }

  /** With a depth limit, this is about runs that cut no list short. */
  lemma {:induction false} RunKeepsComplete(j: Job, n: nat, c: Config)
    requires Complete(j, c) && Levels(c.tasks, c.s.depth, j.maxDepth != 0)
    requires j.maxDepth != 0 ==> Uncut(Run(j, n, c))
    requires Unshared(j, Run(j, n, c).s.out)
    ensures Complete(j, Run(j, n, c))
    decreases n
  {
    hide Next, Complete, Levels;
    if n > 0 && c.tasks != [] {
      RunGrows(j, n, c);
      assert Unshared(j, c.s.out);
      hide Unshared;
      StepKeepsComplete(j, c);
      if j.maxDepth != 0 {
        UncutAtStart(j, n - 1, Next(j, c));
      }
      StepKeepsLevels(j, c, j.maxDepth != 0);
      RunKeepsComplete(j, n - 1, Next(j, c));
    }
  }

  /** The root, once printed, has been turned to. */
  lemma RootSeen(j: Job, n: nat, root: Value)
    requires Run(j, n, Begin(root)).tasks == []
    ensures At(root, 0) in Run(j, n, Begin(root)).s.out
  {
    var c := Begin(root);
    hide DoShow;
    assert c.tasks[0] == Show(root, 0);
    ShowAdds(j, START, root, 0);
    RunGrows(j, n - 1, Next(j, c));
  }

  lemma KidSeen(j: Job, c: Config, u: Value, l: nat, w: Value, level: nat)
    requires Complete(j, c) && c.tasks == [] && Seen(j, c.s.out, u, l)
    requires ToKid(j.heap, j.maxDepth, u, l, w, level)
    ensures Seen(j, c.s.out, w, level)
  {
    hide Kid, Announced, Entered;
    var e: nat :| At(u, e) in c.s.out && NoDeeper(j, e, l);
    assert !Pending(c.tasks, u, e);
    assert Handled(j, c, u, e);
    assert Due(j, c, w, Below(u, e));
    var x: nat :| At(w, x) in c.s.out && NoDeeper(j, x, Below(u, e));
    assert NoDeeper(j, x, level);
  }

  lemma {:induction false} ReachedSeen(j: Job, root: Value, c: Config, n: nat, w: Value, level: nat)
    requires Complete(j, c) && c.tasks == [] && At(root, 0) in c.s.out
    requires ReachedIn(j.heap, j.maxDepth, root, n, w, level)
    ensures Seen(j, c.s.out, w, level)
    decreases n
  {
    hide Complete, Seen, ToKid;
    if n == 0 {
      ShownAtOnce(j, c, w, level);
    } else {
      var u, l: nat :| ReachedIn(j.heap, j.maxDepth, root, n - 1, u, l) && ToKid(j.heap, j.maxDepth, u, l, w, level);
      ReachedSeen(j, root, c, n - 1, u, l);
      KidSeen(j, c, u, l, w, level);
    }
  }

  /** The end of a run that, if there is a depth limit, cut no list short. */
  ghost predicate Ended(j: Job, root: Value, n: nat) {
    Run(j, n, Begin(root)).tasks == [] && (j.maxDepth == 0 || Uncut(Run(j, n, Begin(root))))
  }

  /** Whatever is reached from the root was turned to; pointers were followed, and long lists announced. */
  lemma EverythingShown(j: Job, root: Value, n: nat, w: Value, level: nat)
    requires Ended(j, root, n) && OneAddress(j, root) && Reached(j.heap, j.maxDepth, root, w, level)
    ensures var out := Run(j, n, Begin(root)).s.out;
            && Seen(j, out, w, level) && Entered(j, out, w)
            && (Long(j.heap, w) && Within(j.maxDepth, level + 1) ==> Middle(|Elems(j.heap, w)|) in out)
  {
    var c := Run(j, n, Begin(root));
    BeginSound(j, root);
    assert Complete(j, Begin(root));
    hide Complete, Levels, Sound, Uncut, OneAddress, Unshared;
    RunKeepsSound(j, root, n, Begin(root));
    SoundIsUnshared(j, root, c);
    RunKeepsComplete(j, n, Begin(root));
    RootSeen(j, n, root);
    hide Run;
    var k: nat :| ReachedIn(j.heap, j.maxDepth, root, k, w, level);
    ReachedSeen(j, root, c, k, w, level);
    SeenIsHandled(j, c, w, level);
  }

  lemma SeenIsHandled(j: Job, c: Config, w: Value, level: nat)
    requires Complete(j, c) && c.tasks == [] && Seen(j, c.s.out, w, level)
    ensures Entered(j, c.s.out, w)
    ensures Long(j.heap, w) && Within(j.maxDepth, level + 1) ==> Middle(|Elems(j.heap, w)|) in c.s.out
  {
    hide KidsDue;
    var e: nat :| At(w, e) in c.s.out && NoDeeper(j, e, level);
    assert !Pending(c.tasks, w, e);
    assert Handled(j, c, w, e);
  }

  // ---- loops of pointers ----

  /** `b` lies on the chain of pointers from `a`. */
  ghost predicate OnChain(heap: Heap, a: nat, b: nat) {
    exists i: nat :: Hops(heap, a, i) == Some(b)
  }

  /** On a loop, a pointer leads to another pointer on the loop. */
  lemma LoopGoesOn(heap: Heap, a: nat, b: nat)
    requires PointerLoop(heap, a) && OnChain(heap, a, b)
    ensures b in heap && heap[b].Box?
    ensures var next := Unpack(heap[b].value); next.Ptr? && OnChain(heap, a, next.addr)
  {
    var n: nat :| n > 0 && Hops(heap, a, n) == Some(a);
    var i: nat :| Hops(heap, a, i) == Some(b);
    HopInHeap(heap, a, i);
    LoopNeverEnds(heap, a, n, i + 1);
    HopsAdd(heap, a, i, 1);
    assert Hops(heap, b, 1).Some?;
    assert Hops(heap, a, i + 1) == Some(Unpack(heap[b].value).addr);
  }

  /** The task is about a pointer on the loop through `a`. */
  ghost predicate TaskOn(heap: Heap, a: nat, t: Task) {
    t.Aims() && t.Target().Ptr? && OnChain(heap, a, t.Target().addr)
  }

  /** No address of the loop is in the table, and if the printer turned to one it will come back to the loop. */
  ghost predicate BeforeLoop(j: Job, a: nat, c: Config) {
    && (forall b :: OnChain(j.heap, a, b) ==> j.at(b) !in c.s.pointers)
    && (forall b: nat, l: nat :: At(Ptr(b), l) in c.s.out && OnChain(j.heap, a, b) ==>
          exists t :: t in c.tasks && TaskOn(j.heap, a, t))
  }

  /** The loop that follows pointers runs round the loop of pointers: what the table says of it was recorded at
      the present depth, so that nothing stops it. */
  ghost predicate InLoop(j: Job, a: nat, c: Config) {
    && c.tasks != [] && c.tasks[0].Chase? && TaskOn(j.heap, a, c.tasks[0])
    && (forall b :: OnChain(j.heap, a, b) && j.at(b) in c.s.pointers ==> c.s.pointers[j.at(b)] >= c.s.depth)
  }

  lemma LoopStep(j: Job, a: nat, c: Config)
    requires PointerLoop(j.heap, a) && InLoop(j, a, c)
    ensures InLoop(j, a, Next(j, c))
  {
    hide Hops, PointerLoop;
    LoopGoesOn(j.heap, a, c.tasks[0].value.addr);
    hide OnChain;
  }

  /** Once there, the printer follows pointers for ever. */
  lemma {:induction false} FollowsForEver(j: Job, a: nat, n: nat, c: Config)
    requires PointerLoop(j.heap, a) && InLoop(j, a, c)
    ensures InLoop(j, a, Run(j, n, c))
    decreases n
  {
    hide PointerLoop, InLoop, Next;
    if n > 0 && c.tasks != [] {
      LoopStep(j, a, c);
      FollowsForEver(j, a, n - 1, Next(j, c));
    }
  }

  /** The address of `x` is not that of an object on the loop through `a`. */
  ghost predicate OffLoop(j: Job, a: nat, x: nat) {
    forall b :: OnChain(j.heap, a, b) ==> j.at(b) != j.at(x)
  }

  lemma ReachedIsOffLoop(j: Job, root: Value, a: nat, l: nat, x: nat, m: nat)
    requires OneAddress(j, root) && PointerLoop(j.heap, a) && Reached(j.heap, j.maxDepth, root, Ptr(a), l)
    requires Reached(j.heap, j.maxDepth, root, Ptr(x), m) && Boxed(j.heap, x) && !OnChain(j.heap, a, x)
    ensures OffLoop(j, a, x)
  {
    hide Reached, PointerLoop;
    forall b: nat | OnChain(j.heap, a, b) ensures j.at(b) != j.at(x) {
      var i: nat :| Hops(j.heap, a, i) == Some(b);
      hide Hops;
      HopsReached(j.heap, j.maxDepth, root, a, l, i);
      LoopGoesOn(j.heap, a, b);
    }
  }

  lemma ShowBeforeLoop(j: Job, a: nat, s: State, v: Value, l: nat, rest: seq<Task>)
    requires BeforeLoop(j, a, Config(s, [Show(v, l)] + rest))
    ensures BeforeLoop(j, a, Config(DoShow(j, s, v, l).0, DoShow(j, s, v, l).1 + rest))
  {
    hide OnChain, ContentTasks;
    var (s', ts) := DoShow(j, s, v, l);
    ShowAdds(j, s, v, l);
    var c, c' := Config(s, [Show(v, l)] + rest), Config(s', ts + rest);
    forall b: nat, m: nat | At(Ptr(b), m) in s'.out && OnChain(j.heap, a, b)
      ensures exists t :: t in c'.tasks && TaskOn(j.heap, a, t)
    {
      if v.Ptr? && OnChain(j.heap, a, v.addr) {
        assert Chase(v, l, []) in c'.tasks;
      } else {
        var t :| t in c.tasks && TaskOn(j.heap, a, t);
        assert t in c'.tasks;
      }
    }
  }

  lemma ChaseBeforeLoop(j: Job, a: nat, s: State, v: Value, l: nat, chain: seq<nat>, rest: seq<Task>)
    requires BeforeLoop(j, a, Config(s, [Chase(v, l, chain)] + rest)) && !TaskOn(j.heap, a, Chase(v, l, chain))
    requires Follows(j, s, v) ==> OffLoop(j, a, v.addr)
    ensures BeforeLoop(j, a, Config(DoChase(j, s, v, l, chain).0, DoChase(j, s, v, l, chain).1 + rest))
  {
    hide OnChain;
    var (s', ts) := DoChase(j, s, v, l, chain);
    var c, c' := Config(s, [Chase(v, l, chain)] + rest), Config(s', ts + rest);
    if !Follows(j, s, v) {
      ChaseEndAdds(j, s, v, l, chain);
    }
    forall b: nat, m: nat | At(Ptr(b), m) in s'.out && OnChain(j.heap, a, b)
      ensures exists t :: t in c'.tasks && TaskOn(j.heap, a, t)
    {
      if At(Ptr(b), m) in s.out {
        var t :| t in c.tasks && TaskOn(j.heap, a, t);
        assert t in c'.tasks;
      } else {
        assert ts[0] in c'.tasks;
      }
    }
  }

  lemma OtherBeforeLoop(j: Job, a: nat, s: State, t: Task, rest: seq<Task>)
    requires BeforeLoop(j, a, Config(s, [t] + rest)) && !t.Show? && !t.Chase?
    ensures BeforeLoop(j, a, Config(Do(j, s, t).0, Do(j, s, t).1 + rest))
  {
    hide OnChain;
    var (s', ts) := Do(j, s, t);
    var c, c' := Config(s, [t] + rest), Config(s', ts + rest);
    forall b: nat, m: nat | At(Ptr(b), m) in s'.out && OnChain(j.heap, a, b)
      ensures exists u :: u in c'.tasks && TaskOn(j.heap, a, u)
    {
      assert At(Ptr(b), m) in s.out;
      var u :| u in c.tasks && TaskOn(j.heap, a, u);
      if u == t {
        assert ts[0] in c'.tasks && TaskOn(j.heap, a, ts[0]);
      } else {
        assert u in c'.tasks;
      }
    }
  }

  /** A printer that has not come to the loop comes to it, or has not turned to it yet. */
  lemma StepBeforeLoop(j: Job, root: Value, a: nat, l: nat, c: Config)
    requires OneAddress(j, root) && Sound(j, root, c) && Reached(j.heap, j.maxDepth, root, Ptr(a), l)
    requires PointerLoop(j.heap, a) && BeforeLoop(j, a, c) && c.tasks != []
    ensures BeforeLoop(j, a, Next(j, c)) || InLoop(j, a, Next(j, c))
  {
    var s, t, rest := c.s, c.tasks[0], c.tasks[1..];
    assert c.tasks == [t] + rest;
    if t.Chase? && TaskOn(j.heap, a, t) {
      hide OnChain, PointerLoop;
      LoopStep(j, a, c);
    } else {
      assert SoundTask(j, root, t);
      hide BeforeLoop, OnChain, PointerLoop, DoShow, DoChase, InLoop, Reached, OneAddress, OffLoop, Sound;
      match t
      case Show(v, m) => ShowBeforeLoop(j, a, s, v, m, rest);
      case Chase(v, m, chain) =>
        if Follows(j, s, v) {
          ReachedIsOffLoop(j, root, a, l, v.addr, m);
        }
        ChaseBeforeLoop(j, a, s, v, m, chain, rest);
      case _ => OtherBeforeLoop(j, a, s, t, rest);
    }
  }

  lemma {:induction false} RunBeforeLoop(j: Job, root: Value, a: nat, l: nat, n: nat, c: Config)
    requires OneAddress(j, root) && Sound(j, root, c) && Reached(j.heap, j.maxDepth, root, Ptr(a), l)
    requires PointerLoop(j.heap, a) && BeforeLoop(j, a, c)
    ensures BeforeLoop(j, a, Run(j, n, c)) || InLoop(j, a, Run(j, n, c))
    decreases n
  {
    hide PointerLoop, InLoop, BeforeLoop, Next, OneAddress, Sound, Reached;
    if n > 0 && c.tasks != [] {
      StepBeforeLoop(j, root, a, l, c);
      StepKeepsSound(j, root, c);
      if InLoop(j, a, Next(j, c)) {
        FollowsForEver(j, a, n - 1, Next(j, c));
      } else {
        RunBeforeLoop(j, root, a, l, n - 1, Next(j, c));
      }
    }
  }

  /** A run that ends has reached no loop of pointers, as long as different pointers have different addresses. */
  lemma NoPointerLoopReached(j: Job, root: Value, n: nat, a: nat, l: nat)
    requires Ended(j, root, n) && OneAddress(j, root) && Reached(j.heap, j.maxDepth, root, Ptr(a), l)
    ensures !PointerLoop(j.heap, a)
  {
    if PointerLoop(j.heap, a) {
      var k: nat :| k > 0 && Hops(j.heap, a, k) == Some(a);
      assert Hops(j.heap, a, 0) == Some(a);
      BeginSound(j, root);
      hide OneAddress, Reached, Sound;
      EverythingShown(j, root, n, Ptr(a), l);
      assert BeforeLoop(j, a, Begin(root));
      RunBeforeLoop(j, root, a, l, n, Begin(root));
      assert false;
    }
  }

  // ---- values that contain themselves ----

  /** `u` contains `w`, without a pointer in between. */
  ghost predicate Traps(heap: Heap, u: Value, w: Value) {
    exists n: nat :: n > 0 && Inside(heap, n, u, w)
  }

  lemma HasKids(heap: Heap, u: Value, k: Value)
    requires Kid(heap, u, k)
    ensures u.Ptr? || Composite(u)
  {
  }

  lemma TrapGoesOn(heap: Heap, u: Value, w: Value)
    requires Traps(heap, u, w) && ContentLoop(heap, w)
    ensures Composite(u) && exists k :: Kid(heap, u, k) && Traps(heap, k, w)
  {
    hide Kid;
    var n: nat :| n > 0 && Inside(heap, n, u, w);
    var k :| Kid(heap, u, k) && Inside(heap, n - 1, k, w);
    assert n == 1 ==> k == w;
    HasKids(heap, u, k);
    hide Inside;
    assert Traps(heap, k, w);
  }

  ghost predicate TaskTraps(heap: Heap, t: Task, w: Value) {
    t.Aims() && Traps(heap, t.Target(), w)
  }

  /** Once the printer turned to something that contains `w`, there is always such a thing left to print. */
  ghost predicate Trapped(j: Job, w: Value, c: Config) {
    forall u, l: nat :: At(u, l) in c.s.out && Traps(j.heap, u, w) ==>
      exists t :: t in c.tasks && TaskTraps(j.heap, t, w)
  }

  /** The task for something that contains `w` leaves another one. */
  lemma TaskStaysTrapped(j: Job, s: State, t: Task, w: Value)
    requires j.maxDepth == 0 && ContentLoop(j.heap, w) && TaskTraps(j.heap, t, w)
    ensures exists u :: u in Do(j, s, t).1 && TaskTraps(j.heap, u, w)
  {
    hide Traps, ContentLoop, PartTasks, Kid;
    TrapGoesOn(j.heap, t.Target(), w);
    var v := t.Target();
    if t.Show? {
      var k :| Kid(j.heap, v, k) && Traps(j.heap, k, w);
      KidPlanned(j, v, t.level, ContentTasks(j, v, t.level + 1, s.depth + 1), k);
      var u :| u in ContentTasks(j, v, t.level + 1, s.depth + 1) && u.Aims() && u.Target() == k;
      assert TaskTraps(j.heap, u, w);
    } else {
      assert Show(v, t.level) in Do(j, s, t).1 && TaskTraps(j.heap, Show(v, t.level), w);
    }
  }

  lemma StepTrapped(j: Job, w: Value, c: Config)
    requires j.maxDepth == 0 && ContentLoop(j.heap, w) && Trapped(j, w, c) && c.tasks != []
    ensures Trapped(j, w, Next(j, c))
  {
    hide Traps, ContentLoop;
    var s, t, rest := c.s, c.tasks[0], c.tasks[1..];
    assert c.tasks == [t] + rest;
    var (s', ts) := Do(j, s, t);
    var c' := Next(j, c);
    forall u, l: nat | At(u, l) in s'.out && Traps(j.heap, u, w)
      ensures exists x :: x in c'.tasks && TaskTraps(j.heap, x, w)
    {
      if At(u, l) !in s.out {
        NewlyTrapped(j, s, t, u, l, w);
        var x :| x in ts && TaskTraps(j.heap, x, w);
        assert x in c'.tasks;
      } else {
        hide DoShow, DoChase;
        var x :| x in c.tasks && TaskTraps(j.heap, x, w);
        if x == t {
          TaskStaysTrapped(j, s, t, w);
          var y :| y in ts && TaskTraps(j.heap, y, w);
          assert y in c'.tasks;
        } else {
          assert x in c'.tasks;
        }
      }
    }
  }

  /** What the printer newly turns to is what its task is about, or what the new task is about. */
  lemma NewlyTrapped(j: Job, s: State, t: Task, u: Value, l: nat, w: Value)
    requires j.maxDepth == 0 && ContentLoop(j.heap, w) && Traps(j.heap, u, w)
    requires At(u, l) in Do(j, s, t).0.out && At(u, l) !in s.out
    ensures exists x :: x in Do(j, s, t).1 && TaskTraps(j.heap, x, w)
  {
    hide Traps, ContentLoop;
    if t.Show? {
      ShowAdds(j, s, t.value, t.level);
      TaskStaysTrapped(j, s, t, w);
    } else if t.Chase? {
      if Follows(j, s, t.value) {
        assert Do(j, s, t).1[0] in Do(j, s, t).1 && TaskTraps(j.heap, Do(j, s, t).1[0], w);
      }
    }
  }

  lemma {:induction false} RunTrapped(j: Job, w: Value, n: nat, c: Config)
    requires j.maxDepth == 0 && ContentLoop(j.heap, w) && Trapped(j, w, c)
    ensures Trapped(j, w, Run(j, n, c))
    decreases n
  {
    hide ContentLoop, Trapped, Next;
    if n > 0 && c.tasks != [] {
      StepTrapped(j, w, c);
      RunTrapped(j, w, n - 1, Next(j, c));
    }
  }

  /** A run that ends without a depth limit has reached nothing that contains itself, as long as different
      pointers have different addresses. */
  lemma NoContentLoopReached(j: Job, root: Value, n: nat, w: Value, l: nat)
    requires Ended(j, root, n) && OneAddress(j, root) && j.maxDepth == 0 && Reached(j.heap, 0, root, w, l)
    ensures !ContentLoop(j.heap, w)
  {
    var c := Run(j, n, Begin(root));
    EverythingShown(j, root, n, w, l);
    if ContentLoop(j.heap, w) {
      assert Trapped(j, w, Begin(root));
      RunTrapped(j, w, n, Begin(root));
      assert false;
    }
  }
}
