/** The order of brackets: as long as no list is cut short, each closes the last one that is open. */
module Brackets {
  import opened Wrappers
  import opened Heaps
  import opened Printer
  import opened Trace
  import opened Balance
  import opened Halting

  /** The brackets that a reader of the output finds open, the latest first; None if one was closed that was not
      the last one opened. */
  function Pairs(out: seq<Chunk>): Option<seq<Bracket>> {
    if out == [] then Some([])
    else
      var last, before := out[|out| - 1], Pairs(out[..|out| - 1]);
      if before.None? then None
      else
        match last
        case Open(b) => Some([b] + before.value)
        case Close(b) => if before.value != [] && before.value[0] == b then Some(before.value[1..]) else None
        case _ => before
  }

  function LeaveBy(t: Task): seq<Bracket> {
    if t.Leave? then [t.of] else []
  }

  /** The brackets that the tasks are going to close, in order. */
  function LeavesOf(tasks: seq<Task>): seq<Bracket> {
    if tasks == [] then [] else LeaveBy(tasks[0]) + LeavesOf(tasks[1..])
  }

  ghost predicate Paired(c: Config) {
    Pairs(c.s.out) == Some(LeavesOf(c.tasks))
  }

  lemma PairsPut(s: State, c: Chunk)
    requires Pairs(s.out).Some?
    ensures !c.Open? && !c.Close? ==> Pairs(Put(s, c).out) == Pairs(s.out)
    ensures c.Open? ==> Pairs(Put(s, c).out) == Some([c.of] + Pairs(s.out).value)
    ensures c.Close? && Pairs(s.out).value != [] && Pairs(s.out).value[0] == c.of ==>
              Pairs(Put(s, c).out) == Some(Pairs(s.out).value[1..])
  {
    assert (s.out + [c])[..|s.out|] == s.out;
  }

  lemma PairsPutType(j: Job, s: State, stars: nat, name: string)
    requires Pairs(s.out).Some?
    ensures Pairs(PutType(j, s, stars, name).out) == Pairs(s.out)
  {
    hide Pairs;
    if j.sharp && !s.ignoreType {
      PairsPut(s, Text("(" + Stars(stars) + name + ")"));
    }
  }

  lemma {:induction false} LeavesConcat(a: seq<Task>, b: seq<Task>)
    ensures LeavesOf(a + b) == LeavesOf(a) + LeavesOf(b)
    decreases |a|
  {
    hide LeaveBy;
    if a == [] {
      assert a + b == b;
    } else {
      assert (a + b)[1..] == a[1..] + b;
      LeavesConcat(a[1..], b);
    }
  }

  lemma {:induction false} NoLeaves(ts: seq<Task>)
    requires forall t :: t in ts ==> !t.Leave?
    ensures LeavesOf(ts) == []
    decreases |ts|
  {
    if ts != [] {
      assert ts[0] in ts;
      NoLeaves(ts[1..]);
    }
  }

  /** A composite value that is not cut short closes its own bracket, after its parts. */
  lemma ContentLeaves(j: Job, v: Value, level: nat, depth: int)
    requires Composite(v) && (Within(j.maxDepth, depth) ==> !Long(j.heap, v))
    ensures LeavesOf(ContentTasks(j, v, level, depth)) == [BracketOf(v)]
  {
    var leave := Leave(BracketOf(v));
    assert LeavesOf([leave]) == LeaveBy(leave) + LeavesOf([]);
    PartTasksShow(j, v, level);
    hide LeavesOf, PartTasks;
    if !Within(j.maxDepth, depth) {
      NoLeaves([Say("<max>")]);
      LeavesConcat([Say("<max>")], [leave]);
      assert [Say("<max>"), leave] == [Say("<max>")] + [leave];
    } else {
      NoLeaves(PartTasks(j, v, level));
      LeavesConcat(PartTasks(j, v, level), [leave]);
    }
  }

  lemma TopPaired(s: State, t: Task, rest: seq<Task>)
    ensures Paired(Config(s, [t] + rest)) <==>
            Pairs(s.out) == Some(LeaveBy(t) + LeavesOf(rest))
  {
    assert ([t] + rest)[1..] == rest;
  }

  /** Neither the task nor those that take its place close a bracket, and nothing but text is written. */
  lemma QuietPaired(s: State, t: Task, rest: seq<Task>, s': State, ts: seq<Task>)
    requires Paired(Config(s, [t] + rest)) && !t.Leave? && (forall u :: u in ts ==> !u.Leave?)
    requires Pairs(s'.out) == Pairs(s.out)
    ensures Paired(Config(s', ts + rest))
  {
    TopPaired(s, t, rest);
    hide Pairs, LeavesOf;
    NoLeaves(ts);
    LeavesConcat(ts, rest);
    assert [] + LeavesOf(rest) == LeavesOf(rest);
  }

  lemma SimplePaired(j: Job, s: State, v: Value, l: nat, rest: seq<Task>)
    requires Paired(Config(s, [Show(v, l)] + rest)) && !Composite(v)
    ensures Paired(Config(DoShow(j, s, v, l).0, DoShow(j, s, v, l).1 + rest))
  {
    hide Pairs, LeavesOf;
    var s0 := Put(s, At(v, l));
    PairsPut(s, At(v, l));
    PairsPut(s0, Text("<nil>"));
    PairsPutType(j, s0, 0, j.typeName(v));
    var s1 := PutType(j, s0, 0, j.typeName(v)).(ignoreType := false);
    PairsPut(s1, Text(if v.Leaf? then v.text else "<nil>"));
    QuietPaired(s, Show(v, l), rest, DoShow(j, s, v, l).0, DoShow(j, s, v, l).1);
  }

  lemma CompositePaired(j: Job, s: State, v: Value, l: nat, rest: seq<Task>)
    requires Paired(Config(s, [Show(v, l)] + rest)) && Composite(v)
    requires Within(j.maxDepth, s.depth + 1) ==> !Long(j.heap, v)
    ensures Paired(Config(DoShow(j, s, v, l).0, DoShow(j, s, v, l).1 + rest))
  {
    TopPaired(s, Show(v, l), rest);
    hide Pairs, LeavesOf, ContentTasks;
    assert [] + LeavesOf(rest) == LeavesOf(rest);
    var s0 := Put(s, At(v, l));
    PairsPut(s, At(v, l));
    PairsPutType(j, s0, 0, j.typeName(v));
    var s1 := PutType(j, s0, 0, j.typeName(v)).(ignoreType := false);
    PairsPut(s1, Open(BracketOf(v)));
    ContentLeaves(j, v, l + 1, s.depth + 1);
    LeavesConcat(ContentTasks(j, v, l + 1, s.depth + 1), rest);
  }

  lemma ChasePaired(j: Job, s: State, v: Value, l: nat, chain: seq<nat>, rest: seq<Task>)
    requires Paired(Config(s, [Chase(v, l, chain)] + rest))
    ensures Paired(Config(DoChase(j, s, v, l, chain).0, DoChase(j, s, v, l, chain).1 + rest))
  {
    hide Pairs, LeavesOf;
    var (s', ts) := DoChase(j, s, v, l, chain);
    if Follows(j, s, v) {
      var next := Unpack(j.heap[v.addr].value);
      PairsPut(s, Into(v.addr));
      PairsPut(Put(s, Into(v.addr)), At(next, l));
      assert s.out + [Into(v.addr), At(next, l)] == s.out + [Into(v.addr)] + [At(next, l)];
    } else {
      var s1 := PutType(j, s, |chain|, j.typeName(v));
      PairsPutType(j, s, |chain|, j.typeName(v));
      PairsPut(s1, Text("<nil>"));
      PairsPut(s1, Text("<shown>"));
    }
    QuietPaired(s, Chase(v, l, chain), rest, s', ts);
  }

  lemma LeavePaired(j: Job, s: State, b: Bracket, rest: seq<Task>)
    requires Paired(Config(s, [Leave(b)] + rest))
    ensures Paired(Config(Do(j, s, Leave(b)).0, Do(j, s, Leave(b)).1 + rest))
  {
    TopPaired(s, Leave(b), rest);
    hide Pairs, LeavesOf;
    assert ([b] + LeavesOf(rest))[1..] == LeavesOf(rest);
    PairsPut(s, Close(b));
    assert [] + rest == rest;
  }

  lemma OtherPaired(j: Job, s: State, t: Task, rest: seq<Task>)
    requires Paired(Config(s, [t] + rest)) && !t.Show? && !t.Chase? && !t.Leave?
    ensures Paired(Config(Do(j, s, t).0, Do(j, s, t).1 + rest))
  {
    hide Pairs, LeavesOf;
    match t {
      case Say(text) => PairsPut(s, Text(text));
      case Part(_, _, _) =>
      case Count(n) =>
        PairsPutType(j, s, 0, "string");
        PairsPut(PutType(j, s, 0, "string"), Middle(n));
      case Return(chain) => PairsPut(s, Back(|chain|));
    }
    QuietPaired(s, t, rest, Do(j, s, t).0, Do(j, s, t).1);
  }

  /** Every step keeps the open brackets those that the tasks are going to close, unless it cuts a list short. */
  lemma StepKeepsPaired(j: Job, c: Config)
    requires Paired(c) && c.tasks != [] && forall t :: t in Next(j, c).tasks ==> !t.Count?
    ensures Paired(Next(j, c))
  {
    hide Paired, DoChase;
    var s, t, rest := c.s, c.tasks[0], c.tasks[1..];
    assert c.tasks == [t] + rest;
    match t
    case Show(v, l) =>
      if Composite(v) {
        NotLong(j, c, v, l, rest);
        hide DoShow;
        CompositePaired(j, s, v, l, rest);
      } else {
        hide DoShow;
        SimplePaired(j, s, v, l, rest);
      }
    case Chase(v, l, chain) =>
      hide DoShow;
      ChasePaired(j, s, v, l, chain, rest);
    case Leave(b) =>
      hide DoShow;
      LeavePaired(j, s, b, rest);
    case _ =>
      hide DoShow;
      OtherPaired(j, s, t, rest);
  }

  lemma NotLong(j: Job, c: Config, v: Value, l: nat, rest: seq<Task>)
    requires c.tasks == [Show(v, l)] + rest && Composite(v)
    requires forall t :: t in Next(j, c).tasks ==> !t.Count?
    ensures Within(j.maxDepth, c.s.depth + 1) ==> !Long(j.heap, v)
  {
    hide ContentTasks;
    assert c.tasks[1..] == rest;
    if Within(j.maxDepth, c.s.depth + 1) && Long(j.heap, v) {
      LongCounts(j, v, l + 1, c.s.depth + 1, rest);
    }
  }

  lemma {:induction false} RunKeepsPaired(j: Job, n: nat, c: Config)
    requires Paired(c) && Uncut(Run(j, n, c))
    ensures Paired(Run(j, n, c))
    decreases n
  {
    hide Paired, Next;
    if n > 0 && c.tasks != [] {
      UncutAtStart(j, n - 1, Next(j, c));
      StepKeepsPaired(j, c);
      RunKeepsPaired(j, n - 1, Next(j, c));
    }
  }

  /** How often a bracket occurs. */
  function Occurs(bs: seq<Bracket>, b: Bracket): nat {
    if bs == [] then 0 else (if bs[0] == b then 1 else 0) + Occurs(bs[1..], b)
  }

  /** The brackets found open are as many as were opened and not closed. */
  lemma {:induction false} PairsCount(out: seq<Chunk>, b: Bracket)
    requires Pairs(out).Some?
    ensures Unclosed(out, b) == Occurs(Pairs(out).value, b)
    decreases |out|
  {
    if out != [] {
      var n := |out| - 1;
      PairsCount(out[..n], b);
      var before := Pairs(out[..n]).value;
      match out[n]
      case Open(o) => assert ([o] + before)[1..] == before;
      case _ =>
    }
  }
}
