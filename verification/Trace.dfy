/** What the printer turns to: only values that are reached from the root. */
module Trace {
  import opened Heaps
  import opened Printer

  ghost predicate SoundChunk(j: Job, root: Value, c: Chunk) {
    && (c.At? ==> Reached(j.heap, j.maxDepth, root, c.value, c.level))
    && (c.Middle? ==> ReachesLong(j.heap, j.maxDepth, root, c.total))
  }

  ghost predicate SoundTask(j: Job, root: Value, t: Task) {
    && (t.Aims() ==> Reached(j.heap, j.maxDepth, root, t.Target(), t.level))
    && (t.Count? ==> ReachesLong(j.heap, j.maxDepth, root, t.total))
  }

  ghost predicate SoundOut(j: Job, root: Value, out: seq<Chunk>) {
    forall c :: c in out ==> SoundChunk(j, root, c)
  }

  ghost predicate SoundTasks(j: Job, root: Value, tasks: seq<Task>) {
    forall t :: t in tasks ==> SoundTask(j, root, t)
  }

  /** The level of a task is at most the depth at which its turn comes; if `exact`, it is that depth. */
  ghost predicate Levels(tasks: seq<Task>, depth: int, exact: bool)
    decreases |tasks|
  {
    tasks == [] ||
    (&& (tasks[0].Aims() ==> if exact then tasks[0].level == depth else tasks[0].level <= depth)
     && Levels(tasks[1..], if tasks[0].Leave? then depth - 1 else depth, exact))
  }

  ghost predicate Sound(j: Job, root: Value, c: Config) {
    SoundOut(j, root, c.s.out) && SoundTasks(j, root, c.tasks) && Levels(c.tasks, c.s.depth, false)
  }

  // ---- levels ----

  lemma {:induction false} LevelsDeeper(tasks: seq<Task>, d: int, d': int)
    requires Levels(tasks, d, false) && d <= d'
    ensures Levels(tasks, d', false)
    decreases |tasks|
  {
    if tasks != [] {
      LevelsDeeper(tasks[1..], if tasks[0].Leave? then d - 1 else d, if tasks[0].Leave? then d' - 1 else d');
    }
  }

  lemma {:induction false} PlainLevels(ts: seq<Task>, level: nat, tail: seq<Task>, exact: bool, d: int)
    requires forall t :: t in ts ==> t.Say? || t.Count? || (t.Part? && t.level == level)
    requires Levels(tail, d, exact) && (if exact then level == d else level <= d)
    ensures Levels(ts + tail, d, exact)
    decreases |ts|
  {
    if ts == [] {
      assert ts + tail == tail;
    } else {
      assert ts[0] in ts && (ts + tail)[1..] == ts[1..] + tail;
      PlainLevels(ts[1..], level, tail, exact, d);
    }
  }

  lemma LevelsTop(t: Task, rest: seq<Task>, d: int, exact: bool)
    ensures Levels([t] + rest, d, exact) <==>
            && (t.Aims() ==> if exact then t.level == d else t.level <= d)
            && Levels(rest, if t.Leave? then d - 1 else d, exact)
  {
    assert ([t] + rest)[1..] == rest;
  }

  lemma LevelsNone(rest: seq<Task>, d: int, exact: bool)
    requires Levels(rest, d, exact)
    ensures Levels([] + rest, d, exact)
  {
    assert [] + rest == rest;
  }

  lemma PartsLevels(j: Job, v: Value, level: nat, d: int, tail: seq<Task>, exact: bool)
    requires Composite(v) && Levels(tail, d, exact) && (if exact then level == d else level <= d)
    ensures Levels(PartTasks(j, v, level) + tail, d, exact)
  {
    hide Levels, PartTasks, Parts;
    PartTasksShow(j, v, level);
    PlainLevels(PartTasks(j, v, level), level, tail, exact, d);
  }

  lemma MaxLevels(b: Bracket, d: int, rest: seq<Task>, exact: bool)
    requires Levels([Leave(b)] + rest, d, exact)
    ensures Levels([Say("<max>"), Leave(b)] + rest, d, exact)
  {
    hide Levels;
    LevelsTop(Say("<max>"), [Leave(b)] + rest, d, exact);
    assert [Say("<max>"), Leave(b)] + rest == [Say("<max>")] + ([Leave(b)] + rest);
  }

  /** The contents of a value whose turn comes at depth `d`. With exact levels, a long list must not be cut. */
  lemma ContentLevels(j: Job, v: Value, level: nat, d: int, rest: seq<Task>, exact: bool)
    requires Composite(v) && Levels(rest, d, exact) && (if exact then level == d else level <= d)
    requires exact && Within(j.maxDepth, d + 1) ==> !Long(j.heap, v)
    ensures Levels(ContentTasks(j, v, level + 1, d + 1) + rest, d + 1, exact)
  {
    hide Levels, PartTasks;
    var leave := Leave(BracketOf(v));
    LevelsTop(leave, rest, d + 1, exact);
    var ts := PartTasks(j, v, level + 1);
    if !Within(j.maxDepth, d + 1) {
      MaxLevels(BracketOf(v), d + 1, rest, exact);
    } else if Long(j.heap, v) {
      LevelsDeeper(rest, d, d + 1);
      PartsLevels(j, v, level + 1, d + 1, rest, exact);
      assert ts + [] == ts;
    } else {
      PartsLevels(j, v, level + 1, d + 1, [leave] + rest, exact);
      assert (ts + [leave]) + rest == ts + ([leave] + rest);
    }
  }

  lemma ShowLevels(j: Job, s: State, v: Value, l: nat, rest: seq<Task>, exact: bool)
    requires Levels([Show(v, l)] + rest, s.depth, exact)
    requires exact ==> forall t :: t in DoShow(j, s, v, l).1 + rest ==> !t.Count?
    ensures Levels(DoShow(j, s, v, l).1 + rest, DoShow(j, s, v, l).0.depth, exact)
  {
    hide Levels, ContentTasks;
    LevelsTop(Show(v, l), rest, s.depth, exact);
    if Composite(v) {
      if exact && Within(j.maxDepth, s.depth + 1) && Long(j.heap, v) {
        LongCounts(j, v, l + 1, s.depth + 1, rest);
      }
      ContentLevels(j, v, l, s.depth, rest, exact);
    } else {
      LevelsTop(Chase(v, l, []), rest, s.depth, exact);
      LevelsNone(rest, s.depth, exact);
    }
  }

  lemma ChaseLevels(j: Job, s: State, v: Value, l: nat, chain: seq<nat>, rest: seq<Task>, exact: bool)
    requires Levels([Chase(v, l, chain)] + rest, s.depth, exact)
    ensures Levels(DoChase(j, s, v, l, chain).1 + rest, DoChase(j, s, v, l, chain).0.depth, exact)
  {
    hide Levels;
    LevelsTop(Chase(v, l, chain), rest, s.depth, exact);
    if Follows(j, s, v) {
      LevelsTop(Chase(Unpack(j.heap[v.addr].value), l, [v.addr] + chain), rest, s.depth, exact);
    } else {
      LevelsTop(Return(chain), rest, s.depth, exact);
      LevelsTop(Show(v, l), [Return(chain)] + rest, s.depth, exact);
      assert [Show(v, l), Return(chain)] + rest == [Show(v, l)] + ([Return(chain)] + rest);
    }
  }

  /** With exact levels, this is about a step that does not cut a list short. */
  lemma StepKeepsLevels(j: Job, c: Config, exact: bool)
    requires c.tasks != [] && Levels(c.tasks, c.s.depth, exact)
    requires exact ==> forall t :: t in Next(j, c).tasks ==> !t.Count?
    ensures Levels(Next(j, c).tasks, Next(j, c).s.depth, exact)
  {
    hide Levels, DoShow, DoChase;
    var s, t, rest := c.s, c.tasks[0], c.tasks[1..];
    assert c.tasks == [t] + rest;
    LevelsTop(t, rest, s.depth, exact);
    match t
    case Show(v, l) => ShowLevels(j, s, v, l, rest, exact);
    case Chase(v, l, chain) => ChaseLevels(j, s, v, l, chain, rest, exact);
    case Part(u, l, _) => LevelsTop(Show(Unpack(u), l), rest, s.depth, exact);
    case Leave(_) => LevelsNone(rest, s.depth - 1, exact);
    case _ => LevelsNone(rest, s.depth, exact);
  }

  lemma LongCounts(j: Job, v: Value, level: nat, d: int, rest: seq<Task>)
    requires Composite(v) && Within(j.maxDepth, d) && Long(j.heap, v)
    ensures Count(|Elems(j.heap, v)|) in ContentTasks(j, v, level, d) + rest
  {
    PartTasksShow(j, v, level);
    hide PartTasks;
  }

  // ---- soundness ----

  lemma KidTaskSound(j: Job, root: Value, v: Value, l: nat, u: Value, skipType: bool)
    requires Reached(j.heap, j.maxDepth, root, v, l) && Composite(v) && Within(j.maxDepth, l + 1)
    requires u in Parts(j.heap, v)
    ensures SoundTask(j, root, Part(u, l + 1, skipType))
  {
    hide Reached, Parts;
    KidReached(j.heap, j.maxDepth, root, v, l, Unpack(u), l + 1);
  }

  lemma ContentSound(j: Job, root: Value, v: Value, l: nat, d: int)
    requires Reached(j.heap, j.maxDepth, root, v, l) && Composite(v) && l <= d
    ensures SoundTasks(j, root, ContentTasks(j, v, l + 1, d + 1))
  {
    hide Reached, PartTasks, Parts;
    PartTasksShow(j, v, l + 1);
    forall t | t in ContentTasks(j, v, l + 1, d + 1) ensures SoundTask(j, root, t) {
      if t.Part? {
        KidTaskSound(j, root, v, l, t.value, t.skipType);
      }
    }
  }

  lemma SoundPut(j: Job, root: Value, s: State, c: Chunk)
    requires SoundOut(j, root, s.out) && SoundChunk(j, root, c)
    ensures SoundOut(j, root, Put(s, c).out)
  {
    hide SoundChunk;
  }

  lemma SoundPutType(j: Job, root: Value, s: State, stars: nat, name: string)
    requires SoundOut(j, root, s.out)
    ensures SoundOut(j, root, PutType(j, s, stars, name).out)
  {
    hide SoundOut;
    SoundPut(j, root, s, Text("(" + Stars(stars) + name + ")"));
  }

  lemma ShowSoundOut(j: Job, root: Value, s: State, v: Value, l: nat)
    requires Reached(j.heap, j.maxDepth, root, v, l) && SoundOut(j, root, s.out)
    ensures SoundOut(j, root, DoShow(j, s, v, l).0.out)
  {
    hide Reached, ContentTasks, SoundOut;
    var s0 := Put(s, At(v, l));
    SoundPut(j, root, s, At(v, l));
    SoundPut(j, root, s0, Text("<nil>"));
    SoundPutType(j, root, s0, 0, j.typeName(v));
    var s1 := PutType(j, s0, 0, j.typeName(v)).(ignoreType := false);
    SoundPut(j, root, s1, Text(if v.Leaf? then v.text else "<nil>"));
    if Composite(v) {
      SoundPut(j, root, s1, Open(BracketOf(v)));
    }
  }

  lemma ShowSound(j: Job, root: Value, s: State, v: Value, l: nat)
    requires Reached(j.heap, j.maxDepth, root, v, l) && l <= s.depth && SoundOut(j, root, s.out)
    ensures SoundOut(j, root, DoShow(j, s, v, l).0.out) && SoundTasks(j, root, DoShow(j, s, v, l).1)
  {
    hide Reached, ContentTasks, SoundOut;
    ShowSoundOut(j, root, s, v, l);
    if Composite(v) {
      ContentSound(j, root, v, l, s.depth);
    }
  }

  lemma FollowSound(j: Job, root: Value, s: State, v: Value, l: nat, chain: seq<nat>)
    requires Reached(j.heap, j.maxDepth, root, v, l) && SoundOut(j, root, s.out) && Follows(j, s, v)
    ensures SoundOut(j, root, DoChase(j, s, v, l, chain).0.out) && SoundTasks(j, root, DoChase(j, s, v, l, chain).1)
  {
    hide Reached, SoundOut;
    var next := Unpack(j.heap[v.addr].value);
    PointerKid(j.heap, v.addr);
    KidReached(j.heap, j.maxDepth, root, v, l, next, l);
    SoundPut(j, root, s, Into(v.addr));
    SoundPut(j, root, Put(s, Into(v.addr)), At(next, l));
    assert s.out + [Into(v.addr), At(next, l)] == s.out + [Into(v.addr)] + [At(next, l)];
  }

  lemma ChaseEndSound(j: Job, root: Value, s: State, v: Value, l: nat, chain: seq<nat>)
    requires Reached(j.heap, j.maxDepth, root, v, l) && SoundOut(j, root, s.out) && !Follows(j, s, v)
    ensures SoundOut(j, root, DoChase(j, s, v, l, chain).0.out) && SoundTasks(j, root, DoChase(j, s, v, l, chain).1)
  {
    hide Reached, SoundOut;
    SoundPutType(j, root, s, |chain|, j.typeName(v));
    var s1 := PutType(j, s, |chain|, j.typeName(v));
    SoundPut(j, root, s1, Text("<nil>"));
    SoundPut(j, root, s1, Text("<shown>"));
  }

  lemma OtherSound(j: Job, root: Value, s: State, t: Task)
    requires SoundTask(j, root, t) && SoundOut(j, root, s.out) && !t.Show? && !t.Chase?
    ensures SoundOut(j, root, Do(j, s, t).0.out) && SoundTasks(j, root, Do(j, s, t).1)
  {
    hide Reached, ReachesLong, SoundOut;
    match t
    case Say(text) => SoundPut(j, root, s, Text(text));
    case Part(_, _, _) =>
    case Count(n) =>
      SoundPutType(j, root, s, 0, "string");
      SoundPut(j, root, PutType(j, s, 0, "string"), Middle(n));
    case Leave(b) => SoundPut(j, root, s, Close(b));
    case Return(chain) => SoundPut(j, root, s, Back(|chain|));
  }

  /** Every step keeps to what is reached from the root, on the level where it is reached. */
  lemma StepKeepsSound(j: Job, root: Value, c: Config)
    requires Sound(j, root, c) && c.tasks != []
    ensures Sound(j, root, Next(j, c))
  {
    StepKeepsLevels(j, c, false);
    var s, t, rest := c.s, c.tasks[0], c.tasks[1..];
    assert c.tasks == [t] + rest;
    LevelsTop(t, rest, s.depth, false);
    assert SoundTask(j, root, t);
    assert SoundTasks(j, root, rest);
    hide Reached, ReachesLong, DoShow, DoChase, Levels, SoundOut;
    match t {
      case Show(v, l) => ShowSound(j, root, s, v, l);
      case Chase(v, l, chain) =>
        if Follows(j, s, v) {
          FollowSound(j, root, s, v, l, chain);
        } else {
          ChaseEndSound(j, root, s, v, l, chain);
        }
      case _ => OtherSound(j, root, s, t);
    }
    hide SoundTask;
    assert SoundTasks(j, root, Do(j, s, t).1 + rest);
  }
}
