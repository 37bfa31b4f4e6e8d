/** What the printer does not pass over: whatever is reached from the root, it turns to. */
module Coverage {
  import opened Heaps
  import opened Printer
  import opened Trace

  /** Without a depth limit levels do not matter. */
  predicate NoDeeper(j: Job, l: int, e: int) {
    j.maxDepth == 0 || l <= e
  }

  /** The printer has turned to `k` on level `e` or above. */
  ghost predicate Seen(j: Job, out: seq<Chunk>, k: Value, e: int) {
    exists l: nat :: At(k, l) in out && NoDeeper(j, l, e)
  }

  /** The printer has turned to `k`, or is going to. */
  ghost predicate Due(j: Job, c: Config, k: Value, e: int) {
    Seen(j, c.s.out, k, e) || Planned(j, c.tasks, k, e)
  }

  ghost predicate Planned(j: Job, tasks: seq<Task>, k: Value, e: int) {
    exists t :: t in tasks && t.Aims() && t.Target() == k && NoDeeper(j, t.level, e)
  }

  /** What is owed to the parts of `w`: each is due, unless the depth limit hides it. */
  ghost predicate KidsDue(j: Job, c: Config, w: Value, l: nat) {
    w.Ptr? || Within(j.maxDepth, l + 1) ==> forall k :: Kid(j.heap, w, k) ==> Due(j, c, k, Below(w, l))
  }

  /** A pointer that leads somewhere is followed. */
  ghost predicate Entered(j: Job, out: seq<Chunk>, w: Value) {
    w.Ptr? && w.addr in j.heap && j.heap[w.addr].Box? ==> Into(w.addr) in out
  }

  /** A long list is cut short. */
  ghost predicate Announced(j: Job, c: Config, w: Value, l: nat) {
    Long(j.heap, w) && Within(j.maxDepth, l + 1) ==>
      var n := |Elems(j.heap, w)|;
      Middle(n) in c.s.out || Count(n) in c.tasks
  }

  ghost predicate Handled(j: Job, c: Config, w: Value, l: nat) {
    KidsDue(j, c, w, l) && Entered(j, c.s.out, w) && Announced(j, c, w, l)
  }

  /** The value is still to be handled. */
  ghost predicate Pending(tasks: seq<Task>, w: Value, l: nat) {
    exists t :: t in tasks && (t.Show? || t.Chase?) && t.value == w && t.level == l
  }

  /** Whatever the printer turned to is handled, or will be. */
  ghost predicate Covered(j: Job, c: Config) {
    forall w, l: nat :: At(w, l) in c.s.out ==> Pending(c.tasks, w, l) || Handled(j, c, w, l)
  }

  /** A pointer to `a` was met and followed, and the printer turned to what lies behind it. */
  ghost predicate Opened(j: Job, out: seq<Chunk>, a: nat, e: int) {
    && Boxed(j.heap, a) && Into(a) in out && Seen(j, out, Unpack(j.heap[a].value), e)
    && exists l: nat :: At(Ptr(a), l) in out
  }

  /** Every address in the table is that of some object that was opened. */
  ghost predicate Tabled(j: Job, s: State) {
    forall x :: x in s.pointers ==> exists a :: j.at(a) == x && Opened(j, s.out, a, s.pointers[x])
  }

  /** Pointers that were met and have one address are one pointer. */
  ghost predicate Unshared(j: Job, out: seq<Chunk>) {
    forall a, b, l: nat, m: nat ::
      At(Ptr(a), l) in out && At(Ptr(b), m) in out && Boxed(j.heap, a) && Boxed(j.heap, b) && j.at(a) == j.at(b) ==>
        a == b
  }

  /** A chase has turned to the value it has come to. */
  ghost predicate Chased(c: Config) {
    forall t :: t in c.tasks && t.Chase? ==> At(t.value, t.level) in c.s.out
  }

  ghost predicate Complete(j: Job, c: Config) {
    Covered(j, c) && Tabled(j, c.s) && Chased(c)
  }

  // ---- one step ----

  ghost predicate Grows(out: seq<Chunk>, out': seq<Chunk>) {
    forall c :: c in out ==> c in out'
  }

  lemma SeenStays(j: Job, out: seq<Chunk>, out': seq<Chunk>, k: Value, e: int)
    requires Seen(j, out, k, e) && Grows(out, out')
    ensures Seen(j, out', k, e)
  {
    var l: nat :| At(k, l) in out && NoDeeper(j, l, e);
    assert At(k, l) in out';
  }

  /** What a step must do with its task. */
  ghost predicate Takes(j: Job, s: State, t: Task, c': Config) {
    && Grows(s.out, c'.s.out)
    && (t.Aims() ==> Due(j, c', t.Target(), t.level))
    && (t.Count? ==> Middle(t.total) in c'.s.out)
  }

  lemma DueStays(j: Job, s: State, t: Task, rest: seq<Task>, c': Config, k: Value, e: int)
    requires Due(j, Config(s, [t] + rest), k, e) && Takes(j, s, t, c') && forall u :: u in rest ==> u in c'.tasks
    ensures Due(j, c', k, e)
  {
    if Seen(j, s.out, k, e) {
      SeenStays(j, s.out, c'.s.out, k, e);
    } else {
      var u :| u in [t] + rest && u.Aims() && u.Target() == k && NoDeeper(j, u.level, e);
      if u != t {
        assert u in c'.tasks;
      } else if Seen(j, c'.s.out, k, t.level) {
        var l: nat :| At(k, l) in c'.s.out && NoDeeper(j, l, t.level);
        assert NoDeeper(j, l, e);
      } else {
        var x :| x in c'.tasks && x.Aims() && x.Target() == k && NoDeeper(j, x.level, t.level);
        assert NoDeeper(j, x.level, e);
      }
    }
  }

  lemma HandledStays(j: Job, s: State, t: Task, rest: seq<Task>, c': Config, w: Value, l: nat)
    requires Handled(j, Config(s, [t] + rest), w, l) && Takes(j, s, t, c') && forall u :: u in rest ==> u in c'.tasks
    ensures Handled(j, c', w, l)
  {
    var c := Config(s, [t] + rest);
    hide Due, Kid;
    if w.Ptr? || Within(j.maxDepth, l + 1) {
      forall k | Kid(j.heap, w, k) ensures Due(j, c', k, Below(w, l)) {
        DueStays(j, s, t, rest, c', k, Below(w, l));
      }
    }
  }

  /** The value that the step's task is about, and those it newly turns to, are handled or pending. */
  ghost predicate Answers(j: Job, s: State, t: Task, c': Config) {
    && (t.Show? || t.Chase? ==> Pending(c'.tasks, t.value, t.level) || Handled(j, c', t.value, t.level))
    && (forall w, l: nat :: At(w, l) in c'.s.out && At(w, l) !in s.out ==>
          Pending(c'.tasks, w, l) || Handled(j, c', w, l))
  }

  lemma CoveredStays(j: Job, s: State, t: Task, rest: seq<Task>, s': State, ts: seq<Task>)
    requires Covered(j, Config(s, [t] + rest))
    requires Takes(j, s, t, Config(s', ts + rest)) && Answers(j, s, t, Config(s', ts + rest))
    ensures Covered(j, Config(s', ts + rest))
  {
    var c, c' := Config(s, [t] + rest), Config(s', ts + rest);
    hide Handled, Takes;
    forall w, l: nat | At(w, l) in s'.out ensures Pending(c'.tasks, w, l) || Handled(j, c', w, l) {
      if At(w, l) in s.out {
        if Handled(j, c, w, l) {
          HandledStays(j, s, t, rest, c', w, l);
        } else {
          var u :| u in c.tasks && (u.Show? || u.Chase?) && u.value == w && u.level == l;
          assert u != t ==> u in c'.tasks;
        }
      }
    }
  }

  /** The output grows, and the only value it may newly turn to is `w` on level `l`. */
  ghost predicate Adds(out: seq<Chunk>, out': seq<Chunk>, w: Value, l: nat) {
    && Grows(out, out')
    && forall x, m: nat :: At(x, m) in out' ==> At(x, m) in out || (x == w && m == l)
  }

  lemma AddsPut(out: seq<Chunk>, s: State, c: Chunk, w: Value, l: nat)
    requires Adds(out, s.out, w, l) && (c.At? ==> c == At(w, l))
    ensures Adds(out, Put(s, c).out, w, l)
  {
  }

  lemma AddsPutType(j: Job, out: seq<Chunk>, s: State, stars: nat, name: string, w: Value, l: nat)
    requires Adds(out, s.out, w, l)
    ensures Adds(out, PutType(j, s, stars, name).out, w, l)
  {
    hide Adds;
    AddsPut(out, s, Text("(" + Stars(stars) + name + ")"), w, l);
  }

  lemma ShowAdds(j: Job, s: State, v: Value, l: nat)
    ensures Adds(s.out, DoShow(j, s, v, l).0.out, v, l) && At(v, l) in DoShow(j, s, v, l).0.out
  {
    var s0 := Put(s, At(v, l));
    assert Adds(s.out, s0.out, v, l) && Adds(s0.out, s0.out, v, l) && At(v, l) in s0.out;
    AddsPut(s0.out, s0, Text("<nil>"), v, l);
    AddsPutType(j, s0.out, s0, 0, j.typeName(v), v, l);
    var s1 := PutType(j, s0, 0, j.typeName(v)).(ignoreType := false);
    AddsPut(s0.out, s1, Text(if v.Leaf? then v.text else "<nil>"), v, l);
    if Composite(v) {
      AddsPut(s0.out, s1, Open(BracketOf(v)), v, l);
    }
    hide ContentTasks;
    assert Adds(s0.out, DoShow(j, s, v, l).0.out, v, l);
  }

  lemma ChaseEndAdds(j: Job, s: State, v: Value, l: nat, chain: seq<nat>)
    requires !Follows(j, s, v)
    ensures Adds(s.out, DoChase(j, s, v, l, chain).0.out, v, l)
  {
    assert Adds(s.out, s.out, v, l);
    hide Adds;
    AddsPutType(j, s.out, s, |chain|, j.typeName(v), v, l);
    var s1 := PutType(j, s, |chain|, j.typeName(v));
    AddsPut(s.out, s1, Text("<nil>"), v, l);
    AddsPut(s.out, s1, Text("<shown>"), v, l);
  }

  lemma OpenedStays(j: Job, out: seq<Chunk>, out': seq<Chunk>, a: nat, e: int)
    requires Opened(j, out, a, e) && Grows(out, out')
    ensures Opened(j, out', a, e)
  {
    SeenStays(j, out, out', Unpack(j.heap[a].value), e);
    var l: nat :| At(Ptr(a), l) in out;
    assert At(Ptr(a), l) in out';
  }

  /** The table may lose entries, and the output may grow. */
  lemma TabledStays(j: Job, s: State, s': State)
    requires Tabled(j, s) && Grows(s.out, s'.out)
    requires forall a :: a in s'.pointers ==> a in s.pointers && s'.pointers[a] == s.pointers[a]
    ensures Tabled(j, s')
  {
    hide Opened;
    forall x | x in s'.pointers ensures exists a :: j.at(a) == x && Opened(j, s'.out, a, s'.pointers[x]) {
      var a :| j.at(a) == x && Opened(j, s.out, a, s.pointers[x]);
      OpenedStays(j, s.out, s'.out, a, s.pointers[x]);
    }
  }

  /** All that a step has to show. */
  lemma CompleteStays(j: Job, s: State, t: Task, rest: seq<Task>, s': State, ts: seq<Task>)
    requires Complete(j, Config(s, [t] + rest))
    requires Takes(j, s, t, Config(s', ts + rest)) && Answers(j, s, t, Config(s', ts + rest))
    requires Tabled(j, s') && forall u :: u in ts && u.Chase? ==> At(u.value, u.level) in s'.out
    ensures Complete(j, Config(s', ts + rest))
  {
    CoveredStays(j, s, t, rest, s', ts);
    hide Covered, Answers, Tabled, Due;
    var c' := Config(s', ts + rest);
    forall u | u in c'.tasks && u.Chase? ensures At(u.value, u.level) in s'.out {
      if u !in ts {
        assert u in [t] + rest;
      }
    }
  }

  lemma NoKids(j: Job, c: Config, w: Value, l: nat)
    requires !w.Ptr? && !Composite(w)
    ensures Handled(j, c, w, l)
  {
    assert Parts(j.heap, w) == [];
  }

  lemma ShownAtOnce(j: Job, c: Config, v: Value, l: nat)
    requires At(v, l) in c.s.out
    ensures Seen(j, c.s.out, v, l) && Due(j, c, v, l)
  {
    assert Seen(j, c.s.out, v, l);
  }

  /** A value that is not composite. */
  lemma SimpleComplete(j: Job, s: State, v: Value, l: nat, rest: seq<Task>)
    requires Complete(j, Config(s, [Show(v, l)] + rest)) && !Composite(v)
    ensures Complete(j, Config(DoShow(j, s, v, l).0, DoShow(j, s, v, l).1 + rest))
  {
    var (s', ts) := DoShow(j, s, v, l);
    var c' := Config(s', ts + rest);
    ShowAdds(j, s, v, l);
    TabledStays(j, s, s');
    ShownAtOnce(j, c', v, l);
    if v.Ptr? || ts != [] {
      assert Chase(v, l, []) in c'.tasks;
    } else {
      NoKids(j, c', v, l);
    }
    hide Covered, Tabled, Due, Handled;
    CompleteStays(j, s, Show(v, l), rest, s', ts);
  }

  lemma PartsDue(j: Job, s': State, v: Value, l: nat, d: int, rest: seq<Task>)
    requires Composite(v) && Within(j.maxDepth, d) && l >= 0
    ensures Handled(j, Config(s', ContentTasks(j, v, l + 1, d) + rest), v, l)
  {
    hide Kid, Parts, PartTasks;
    PartTasksShow(j, v, l + 1);
    var ts := ContentTasks(j, v, l + 1, d) + rest;
    assert forall t :: t in PartTasks(j, v, l + 1) ==> t in ts;
    forall k | Kid(j.heap, v, k) ensures Planned(j, ts, k, l + 1) {
      KidPlanned(j, v, l, ts, k);
    }
  }

  lemma KidPlanned(j: Job, v: Value, l: nat, ts: seq<Task>, k: Value)
    requires Composite(v) && Kid(j.heap, v, k)
    requires forall t :: t in PartTasks(j, v, l + 1) ==> t in ts
    ensures Planned(j, ts, k, l + 1)
  {
    PartTasksShow(j, v, l + 1);
    var u :| u in Parts(j.heap, v) && k == Unpack(u);
    hide Parts, PartTasks;
    var t :| t in PartTasks(j, v, l + 1) && t.Part? && t.value == u && t.level == l + 1;
    assert t in ts && t.Target() == k;
  }

  lemma HiddenHandled(j: Job, c: Config, v: Value, l: nat)
    requires Composite(v) && !Within(j.maxDepth, l + 1)
    ensures Handled(j, c, v, l)
  {
  }

  /** A composite value whose level is its depth, if there is a depth limit. */
  lemma CompositeComplete(j: Job, s: State, v: Value, l: nat, rest: seq<Task>)
    requires Complete(j, Config(s, [Show(v, l)] + rest)) && Composite(v)
    requires j.maxDepth == 0 || l == s.depth
    ensures Complete(j, Config(DoShow(j, s, v, l).0, DoShow(j, s, v, l).1 + rest))
  {
    hide ContentTasks, Covered, Tabled, Due, Handled, Seen;
    var (s', ts) := DoShow(j, s, v, l);
    var c' := Config(s', ts + rest);
    ShowAdds(j, s, v, l);
    TabledStays(j, s, s');
    ShownAtOnce(j, c', v, l);
    if Within(j.maxDepth, s.depth + 1) {
      PartsDue(j, s', v, l, s.depth + 1, rest);
    } else {
      HiddenHandled(j, c', v, l);
    }
    ContentChaseless(j, v, l + 1, s.depth + 1);
    CompleteStays(j, s, Show(v, l), rest, s', ts);
  }

  lemma ContentChaseless(j: Job, v: Value, level: nat, d: int)
    requires Composite(v)
    ensures forall t :: t in ContentTasks(j, v, level, d) ==> !t.Chase?
  {
    PartTasksShow(j, v, level);
    hide PartTasks, Parts;
  }

  lemma FollowComplete(j: Job, s: State, v: Value, l: nat, chain: seq<nat>, rest: seq<Task>)
    requires Complete(j, Config(s, [Chase(v, l, chain)] + rest)) && Follows(j, s, v) && l <= s.depth
    ensures Complete(j, Config(DoChase(j, s, v, l, chain).0, DoChase(j, s, v, l, chain).1 + rest))
  {
    var (s', ts) := DoChase(j, s, v, l, chain);
    var c' := Config(s', ts + rest);
    var t, next := Chase(v, l, chain), Unpack(j.heap[v.addr].value);
    assert t in [t] + rest && At(v, l) in s.out;
    assert Adds(s.out, s'.out, next, l) && At(next, l) in s'.out && Into(v.addr) in s'.out;
    FollowTabled(j, s, s', v.addr, l);
    ShownAtOnce(j, c', v, l);
    PointerKid(j.heap, v.addr);
    assert Seen(j, s'.out, next, l);
    assert Handled(j, c', v, l) by {
      hide Kid;
    }
    assert ts[0] in c'.tasks && Pending(c'.tasks, next, l);
    hide Covered, Tabled, Due, Handled, Seen;
    CompleteStays(j, s, t, rest, s', ts);
  }

  lemma FollowTabled(j: Job, s: State, s': State, a: nat, l: nat)
    requires Tabled(j, s) && Grows(s.out, s'.out) && Boxed(j.heap, a) && l <= s.depth
    requires s'.pointers == s.pointers[j.at(a) := s.depth] && At(Ptr(a), l) in s'.out
    requires Into(a) in s'.out && At(Unpack(j.heap[a].value), l) in s'.out
    ensures Tabled(j, s')
  {
    assert NoDeeper(j, l, s.depth);
    assert Opened(j, s'.out, a, s.depth);
    hide Opened;
    forall x | x in s'.pointers ensures exists b :: j.at(b) == x && Opened(j, s'.out, b, s'.pointers[x]) {
      if x != j.at(a) {
        var b :| j.at(b) == x && Opened(j, s.out, b, s.pointers[x]);
        OpenedStays(j, s.out, s'.out, b, s.pointers[x]);
      }
    }
  }

  /** The pointer was followed before, at a smaller depth. */
  lemma RecordedHandled(j: Job, c: Config, s: State, v: Value, l: nat)
    requires v.Ptr? && Boxed(j.heap, v.addr) && Tabled(j, s) && Recorded(j, s, v.addr) && Grows(s.out, c.s.out)
    requires At(v, l) in s.out && Unshared(j, s.out)
    requires j.maxDepth == 0 || l == s.depth
    ensures Handled(j, c, v, l)
  {
    var a :| j.at(a) == j.at(v.addr) && Opened(j, s.out, a, s.pointers[j.at(v.addr)]);
    assert a == v.addr;
    var next := Unpack(j.heap[v.addr].value);
    var e: nat :| At(next, e) in s.out && NoDeeper(j, e, s.pointers[j.at(a)]);
    assert At(next, e) in c.s.out && NoDeeper(j, e, l);
    assert Seen(j, c.s.out, next, l);
    PointerKid(j.heap, v.addr);
    hide Kid, Seen;
  }

  lemma ChaseEndComplete(j: Job, s: State, v: Value, l: nat, chain: seq<nat>, rest: seq<Task>)
    requires Complete(j, Config(s, [Chase(v, l, chain)] + rest)) && !Follows(j, s, v) && Unshared(j, s.out)
    requires j.maxDepth == 0 || l == s.depth
    ensures Complete(j, Config(DoChase(j, s, v, l, chain).0, DoChase(j, s, v, l, chain).1 + rest))
  {
    var (s', ts) := DoChase(j, s, v, l, chain);
    var c' := Config(s', ts + rest);
    var t := Chase(v, l, chain);
    assert t in [t] + rest && At(v, l) in s.out;
    ChaseEndAdds(j, s, v, l, chain);
    TabledStays(j, s, s');
    ShownAtOnce(j, c', v, l);
    if v.Ptr? {
      if Boxed(j.heap, v.addr) {
        RecordedHandled(j, c', s, v, l);
      } else {
        assert Parts(j.heap, v) == [];
      }
    } else if v.NilPtr? || v.NilIface? {
      NoKids(j, c', v, l);
    } else {
      assert ts[0] in c'.tasks;
    }
    hide Covered, Tabled, Due, Handled;
    CompleteStays(j, s, t, rest, s', ts);
  }

  lemma OtherComplete(j: Job, s: State, t: Task, rest: seq<Task>)
    requires Complete(j, Config(s, [t] + rest)) && !t.Show? && !t.Chase?
    ensures Complete(j, Config(Do(j, s, t).0, Do(j, s, t).1 + rest))
  {
    var (s', ts) := Do(j, s, t);
    var c' := Config(s', ts + rest);
    TabledStays(j, s, s');
    if t.Part? {
      assert Show(t.Target(), t.level) in c'.tasks;
    }
    hide Covered, Tabled, Handled;
    CompleteStays(j, s, t, rest, s', ts);
  }

  /** Every step keeps the promise to turn to all parts of what it turned to, as long as different pointers have
      different addresses. */
  lemma StepKeepsComplete(j: Job, c: Config)
    requires Complete(j, c) && c.tasks != [] && Levels(c.tasks, c.s.depth, j.maxDepth != 0) && Unshared(j, c.s.out)
    ensures Complete(j, Next(j, c))
  {
    hide Complete, DoShow, DoChase, Unshared;
    var s, t, rest := c.s, c.tasks[0], c.tasks[1..];
    assert c.tasks == [t] + rest;
    LevelsTop(t, rest, s.depth, j.maxDepth != 0);
    hide Levels;
    match t
    case Show(v, l) =>
      if Composite(v) {
        CompositeComplete(j, s, v, l, rest);
      } else {
        SimpleComplete(j, s, v, l, rest);
      }
    case Chase(v, l, chain) =>
      if Follows(j, s, v) {
        FollowComplete(j, s, v, l, chain, rest);
      } else {
        ChaseEndComplete(j, s, v, l, chain, rest);
      }
    case _ => OtherComplete(j, s, t, rest);
  }
}
