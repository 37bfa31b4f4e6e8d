/** The printer comes to an end whenever nothing keeps it from it. */
module Ending {
  import opened Wrappers
  import opened Sets
  import opened Heaps
  import opened Printer
  import opened Trace
  import opened Nesting
  import opened Halting

  // ---- chains that come back ----

  lemma HopsNext(heap: Heap, a: nat, b: nat, n: nat)
    requires Boxed(heap, a) && Unpack(heap[a].value) == Ptr(b)
    ensures Hops(heap, a, n + 1) == Hops(heap, b, n)
  {
  }

  /** A chain leads from the object at place `i` to those before it, and round if it has come back to that one. */
  lemma {:induction false} TrailStays(heap: Heap, chain: seq<nat>, i: nat, k: nat)
    requires i < |chain| && Trail(heap, chain, Ptr(chain[i]))
    ensures Hops(heap, chain[i], k).Some? && Hops(heap, chain[i], k).value in chain
    decreases k
  {
    assert Link(heap, chain, i, Ptr(chain[i]));
    if k > 0 {
      TrailStays(heap, chain, i, k - 1);
      var b := Hops(heap, chain[i], k - 1).value;
      var p :| 0 <= p < |chain| && chain[p] == b;
      var next := if p == 0 then chain[i] else chain[p - 1];
      assert Link(heap, chain, p, Ptr(chain[i])) && Link(heap, chain, if p == 0 then i else p - 1, Ptr(chain[i]));
      assert Hops(heap, next, 0) == Some(next);
      HopsNext(heap, chain[p], next, 0);
      HopsAdd(heap, chain[i], k - 1, 1);
    }
  }

  lemma {:induction false} TrailHops(heap: Heap, chain: seq<nat>, v: nat, i: nat)
    requires i < |chain| && Boxed(heap, v) && Trail(heap, chain, Ptr(v))
    ensures Hops(heap, chain[i], i + 1) == Some(v)
    decreases i
  {
    assert Link(heap, chain, i, Ptr(v));
    if i == 0 {
      assert Hops(heap, v, 0) == Some(v);
      HopsNext(heap, chain[0], v, 0);
    } else {
      TrailHops(heap, chain, v, i - 1);
      HopsNext(heap, chain[i], chain[i - 1], i);
    }
  }

  /** If the chain has come back to an object on it, the printer goes round for ever. */
  lemma RepeatingLoops(j: Job, c: Config)
    requires Tracked(j, c) && c.tasks != [] && Repeats(c.tasks[0])
    ensures PointerLoop(j.heap, c.tasks[0].value.addr) && InLoop(j, c.tasks[0].value.addr, c)
  {
    var a, chain := c.tasks[0].value.addr, c.tasks[0].chain;
    var i :| 0 <= i < |chain| && chain[i] == a;
    assert c.tasks[0].value == Ptr(a) && Link(j.heap, chain, i, Ptr(a));
    TrailHops(j.heap, chain, a, i);
    assert PointerLoop(j.heap, a);
    assert OnChain(j.heap, a, a) by {
      assert Hops(j.heap, a, 0) == Some(a);
    }
    forall b: nat | OnChain(j.heap, a, b) ensures b in chain {
      var k: nat :| Hops(j.heap, a, k) == Some(b);
      TrailStays(j.heap, chain, i, k);
    }
    hide OnChain, Hops, PointerLoop, Trail;
  }

  ghost predicate Fine(j: Job, root: Value, c: Config) {
    Sound(j, root, c) && Nested(j, c) && Tracked(j, c)
  }

  lemma StepKeepsFine(j: Job, root: Value, c: Config)
    requires Printable(j.heap, j.maxDepth, root) && Fine(j, root, c) && c.tasks != []
    ensures Fine(j, root, Next(j, c))
  {
    hide Nested, Tracked, PointerLoop, InLoop, ContentLoop, Reached, Levels, SoundOut;
    StepKeepsSound(j, root, c);
    StepKeepsTracked(j, c);
    assert SoundTask(j, root, c.tasks[0]);
    if Repeats(c.tasks[0]) {
      RepeatingLoops(j, c);
    }
    StepKeepsNested(j, c);
  }

  lemma {:induction false} RunKeepsFine(j: Job, root: Value, n: nat, c: Config)
    requires Printable(j.heap, j.maxDepth, root) && Fine(j, root, c)
    ensures Fine(j, root, Run(j, n, c))
    decreases n
  {
    hide Next, Fine, Printable;
    if n > 0 && c.tasks != [] {
      StepKeepsFine(j, root, c);
      RunKeepsFine(j, root, n - 1, Next(j, c));
    }
  }

  // ---- the measure ----

  /** The slices and maps of the heap. */
  ghost function Refs(heap: Heap): set<Value> {
    (set a | a in heap :: List(a)) + (set a | a in heap :: Map(a))
  }

  /** Without a depth limit: the addresses that are not open. With one: the levels left. */
  ghost function Room(j: Job, rest: seq<Task>, level: nat): nat {
    if j.maxDepth == 0 then |j.heap.Keys - (set a | a in OpenOf(rest))|
    else if level < j.maxDepth then j.maxDepth - level else 0
  }

  /** Without a depth limit: the slices and maps that `v` is not inside of. With one: whether `v` is a pointer. */
  ghost function Choice(j: Job, seen: set<Value>, v: Value): nat {
    if j.maxDepth == 0 then |Refs(j.heap) - seen| else if v.Ptr? then 1 else 0
  }

  /** `v` is inside everything in `seen`, without a pointer in between. */
  ghost predicate Surrounds(j: Job, seen: set<Value>, v: Value) {
    forall x :: x in seen ==> x in Refs(j.heap) && Traps(j.heap, x, v)
  }

  /** What surrounds the parts of a composite value. */
  ghost function Around(j: Job, seen: set<Value>, v: Value): set<Value> {
    if v in Refs(j.heap) then seen + {v} else seen
  }

  lemma SurroundsParts(j: Job, seen: set<Value>, v: Value, k: Value)
    requires Surrounds(j, seen, v) && Composite(v) && Kid(j.heap, v, k)
    ensures Surrounds(j, Around(j, seen, v), k)
  {
    hide Refs, Kid;
    assert Inside(j.heap, 1, v, k) by {
      assert Inside(j.heap, 0, k, k);
    }
    forall x | x in seen ensures Traps(j.heap, x, k) {
      var n: nat :| n > 0 && Inside(j.heap, n, x, v);
      InsideDeeper(j.heap, n, x, v, k);
    }
  }

  /** A part of an array or struct is smaller; a slice or a map is one more thing to be inside of. */
  lemma PartsAreSmaller(j: Job, root: Value, seen: set<Value>, v: Value, l: nat, u: Value)
    requires Printable(j.heap, j.maxDepth, root) && Reached(j.heap, j.maxDepth, root, v, l) && j.maxDepth == 0
    requires Surrounds(j, seen, v) && Composite(v) && u in Parts(j.heap, v)
    ensures Choice(j, Around(j, seen, v), Unpack(u)) < Choice(j, seen, v) ||
            (Choice(j, Around(j, seen, v), Unpack(u)) == Choice(j, seen, v) && Unpack(u) < v)
  {
    if v.List? || v.Map? {
      RefIsNew(j, root, seen, v, l);
      assert v in Refs(j.heap);
      SubsetSize(Refs(j.heap) - (seen + {v}), Refs(j.heap) - seen);
    } else {
      InlineIsSmaller(j.heap, v, u);
      assert v !in Refs(j.heap);
    }
  }

  lemma RefIsNew(j: Job, root: Value, seen: set<Value>, v: Value, l: nat)
    requires Printable(j.heap, j.maxDepth, root) && Reached(j.heap, j.maxDepth, root, v, l) && j.maxDepth == 0
    requires Surrounds(j, seen, v)
    ensures v !in seen
  {
    hide Reached, Inside;
    if v in seen {
      assert false;
    }
  }

  lemma InlineIsSmaller(heap: Heap, v: Value, u: Value)
    requires (v.Array? || v.Struct?) && u in Parts(heap, v)
    ensures Unpack(u) < v
  {
    if v.Struct? {
      FieldPartsAre(v.fields, 0, u);
    } else {
      assert u in v.elems;
    }
  }

  // ---- runs ----

  /** From `c` the printer comes to the tasks `rest` in `n` steps. */
  ghost predicate Leads(j: Job, root: Value, c: Config, n: nat, rest: seq<Task>) {
    Run(j, n, c).tasks == rest && Fine(j, root, Run(j, n, c))
  }

  lemma LeadsStep(j: Job, root: Value, c: Config, n: nat, rest: seq<Task>)
    requires c.tasks != [] && Leads(j, root, Next(j, c), n, rest)
    ensures Leads(j, root, c, n + 1, rest)
  {
  }

  lemma LeadsTo(j: Job, root: Value, c: Config, m: nat, n: nat, rest: seq<Task>)
    requires Leads(j, root, Run(j, m, c), n, rest)
    ensures Leads(j, root, c, m + n, rest)
  {
    RunAdd(j, m, n, c);
  }

  /** A task that leaves nothing to do. */
  lemma OneStep(j: Job, root: Value, c: Config)
    requires Printable(j.heap, j.maxDepth, root) && Fine(j, root, c) && c.tasks != []
    requires Do(j, c.s, c.tasks[0]).1 == []
    ensures Leads(j, root, c, 1, c.tasks[1..])
  {
    hide Do, Fine, Printable;
    StepKeepsFine(j, root, c);
    assert [] + c.tasks[1..] == c.tasks[1..];
    assert Run(j, 0, Next(j, c)) == Next(j, c);
  }

  lemma TopReached(j: Job, root: Value, c: Config)
    requires Fine(j, root, c) && c.tasks != [] && c.tasks[0].Aims()
    ensures Reached(j.heap, j.maxDepth, root, c.tasks[0].Target(), c.tasks[0].level)
    ensures c.tasks[0].level <= c.s.depth
  {
    hide Nested, Reached, SoundOut;
    assert SoundTask(j, root, c.tasks[0]);
  }

  lemma {:induction false} EndShow(j: Job, root: Value, c: Config, v: Value, l: nat, rest: seq<Task>, seen: set<Value>)
    returns (n: nat)
    requires Printable(j.heap, j.maxDepth, root) && Fine(j, root, c) && c.tasks == [Show(v, l)] + rest
    requires Surrounds(j, seen, v)
    ensures Leads(j, root, c, n, rest)
    decreases Room(j, rest, l), Choice(j, seen, v), v, 2, 0
  {
    hide Printable, Fine, Reached, PutType, ContentTasks, Leads, Surrounds, Room, Choice;
    var s := c.s;
    assert c.tasks[1..] == rest;
    if Composite(v) {
      n := EndComposite(j, root, c, v, l, rest, seen);
    } else if v.Ptr? || DoShow(j, s, v, l).1 != [] {
      StepKeepsFine(j, root, c);
      var left := ChainLength(j, root, c, v, l);
      n := EndChase(j, root, Next(j, c), v, l, [], rest, left, seen, v);
      LeadsStep(j, root, c, n, rest);
      n := n + 1;
    } else {
      OneStep(j, root, c);
      n := 1;
    }
  }

  /** The chain of pointers from a reached pointer ends. */
  lemma ChainLength(j: Job, root: Value, c: Config, v: Value, l: nat) returns (left: nat)
    requires Printable(j.heap, j.maxDepth, root) && Fine(j, root, c) && c.tasks != [] && c.tasks[0] == Show(v, l)
    ensures v.Ptr? ==> Hops(j.heap, v.addr, left).None?
  {
    left := 0;
    if v.Ptr? {
      TopReached(j, root, c);
      forall i: nat | Hops(j.heap, v.addr, i).Some? ensures !PointerLoop(j.heap, Hops(j.heap, v.addr, i).value) {
        hide PointerLoop, Reached, Fine;
        HopsReached(j.heap, j.maxDepth, root, v.addr, l, i);
      }
      hide PointerLoop, Fine, Printable, Hops;
      ChainEnds(j.heap, v.addr);
      left :| Hops(j.heap, v.addr, left).None?;
    }
  }

  /** The loop that follows pointers; `v0` is the pointer it started from. */
  lemma {:induction false} EndChase(j: Job, root: Value, c: Config, v: Value, l: nat, chain: seq<nat>, rest: seq<Task>,
                                    left: nat, seen: set<Value>, v0: Value) returns (n: nat)
    requires Printable(j.heap, j.maxDepth, root) && Fine(j, root, c) && c.tasks == [Chase(v, l, chain)] + rest
    requires v.Ptr? ==> Hops(j.heap, v.addr, left).None?
    requires chain == [] ==> v.Ptr? || v.NilPtr?
    requires v0.Ptr? || (v0 == v && v.NilPtr?)
    ensures Leads(j, root, c, n, rest)
    decreases Room(j, rest, l), Choice(j, seen, v0), v0, 1, left
  {
    hide Printable, Fine, Reached, PutType, Leads, Surrounds, Room, Choice;
    var s := c.s;
    assert c.tasks[1..] == rest;
    StepKeepsFine(j, root, c);
    if Follows(j, s, v) {
      var next := Unpack(j.heap[v.addr].value);
      n := EndChase(j, root, Next(j, c), next, l, [v.addr] + chain, rest, left - 1, seen, v0);
    } else if v.Ptr? || v.NilPtr? || v.NilIface? {
      n := EndReturn(j, root, Next(j, c), chain, rest);
    } else {
      var back := [Return(chain)] + rest;
      assert [Show(v, l), Return(chain)] + rest == [Show(v, l)] + back;
      ChainMakesRoom(j, root, c, v, l, chain, rest, seen, v0);
      NothingSurrounds(j, v);
      n := EndShow(j, root, Next(j, c), v, l, back, {});
      LeadsIsFine(j, root, Next(j, c), n, back);
      var m := EndReturn(j, root, Run(j, n, Next(j, c)), chain, rest);
      LeadsTo(j, root, Next(j, c), n, m, rest);
      n := n + m;
    }
    LeadsStep(j, root, c, n, rest);
    n := n + 1;
  }

  lemma NothingSurrounds(j: Job, v: Value)
    ensures Surrounds(j, {}, v)
  {
  }

  lemma EndReturn(j: Job, root: Value, c: Config, chain: seq<nat>, rest: seq<Task>) returns (n: nat)
    requires Printable(j.heap, j.maxDepth, root) && Fine(j, root, c) && c.tasks == [Return(chain)] + rest
    ensures Leads(j, root, c, n, rest)
  {
    hide Fine, Printable, Leads;
    assert c.tasks[1..] == rest;
    OneStep(j, root, c);
    n := 1;
  }

  ghost predicate Different(xs: seq<nat>) {
    forall i, k :: 0 <= i < k < |xs| ==> xs[i] != xs[k]
  }

  lemma {:induction false} ScanDifferent(out: seq<Chunk>)
    ensures Scan(out).Some? ==> Different(Scan(out).value)
    decreases |out|
  {
    if out != [] {
      ScanDifferent(out[..|out| - 1]);
    }
  }

  /** A chain that was followed leaves fewer addresses to follow, and ends at something that is no pointer. */
  lemma ChainMakesRoom(j: Job, root: Value, c: Config, v: Value, l: nat, chain: seq<nat>, rest: seq<Task>,
                       seen: set<Value>, v0: Value)
    requires Fine(j, root, c) && c.tasks == [Chase(v, l, chain)] + rest && chain != [] && !v.Ptr? && v0.Ptr?
    ensures var back := [Return(chain)] + rest;
            Room(j, back, l) < Room(j, rest, l)
            || (Room(j, back, l) == Room(j, rest, l) && Choice(j, {}, v) < Choice(j, seen, v0))
  {
    if j.maxDepth == 0 {
      var back := [Return(chain)] + rest;
      assert back[1..] == rest && c.tasks[1..] == rest;
      assert OpenOf(back) == chain + OpenOf(rest) == OpenOf(c.tasks);
      var open := OpenOf(rest);
      hide OpenOf, Sound, Ready;
      ScanDifferent(c.s.out);
      hide Scan;
      var a := chain[0];
      assert (chain + open)[0] == a && a in chain + open;
      assert forall i :: 0 <= i < |open| ==> open[i] == (chain + open)[|chain| + i];
      assert a !in open;
      var small, large := j.heap.Keys - (set x | x in OpenOf(back)), j.heap.Keys - (set x | x in open);
      assert small <= large && a in large && a !in small;
      SubsetSize(small, large);
    }
  }

  lemma {:induction false} EndComposite(j: Job, root: Value, c: Config, v: Value, l: nat, rest: seq<Task>,
                                        seen: set<Value>) returns (n: nat)
    requires Printable(j.heap, j.maxDepth, root) && Fine(j, root, c) && c.tasks == [Show(v, l)] + rest
    requires Surrounds(j, seen, v) && Composite(v)
    ensures Leads(j, root, c, n, rest)
    decreases Room(j, rest, l), Choice(j, seen, v), v, 1, 0
  {
    hide Printable, Fine, Reached, Leads, Surrounds, Room, Choice, PartTasks;
    var c1 := Next(j, c);
    var leave := Leave(BracketOf(v));
    OpenStep(j, c, v, l, rest);
    StepKeepsFine(j, root, c);
    TopReached(j, root, c);
    hide Next;
    if !Within(j.maxDepth, c.s.depth + 1) {
      n := EndTooDeep(j, root, c1, BracketOf(v), rest);
    } else {
      var ts := PartTasks(j, v, l + 1);
      PartTasksShow(j, v, l + 1);
      if Long(j.heap, v) {
        assert ts + [] == ts;
        n := EndParts(j, root, c1, ts, rest, rest, v, l, seen);
      } else {
        assert (ts + [leave]) + rest == ts + ([leave] + rest);
        assert ([leave] + rest)[1..] == rest;
        n := EndParts(j, root, c1, ts, [leave] + rest, rest, v, l, seen);
        n := EndLeave(j, root, c1, n, BracketOf(v), rest);
      }
    }
    LeadsStep(j, root, c, n, rest);
    n := n + 1;
  }

  /** The step that opens a composite value. */
  lemma OpenStep(j: Job, c: Config, v: Value, l: nat, rest: seq<Task>)
    requires c.tasks == [Show(v, l)] + rest && Composite(v)
    ensures Next(j, c).tasks == ContentTasks(j, v, l + 1, c.s.depth + 1) + rest
    ensures Next(j, c).s.depth == c.s.depth + 1
  {
    hide ContentTasks;
    assert c.tasks[1..] == rest;
  }

  lemma EndTooDeep(j: Job, root: Value, c: Config, b: Bracket, rest: seq<Task>) returns (n: nat)
    requires Printable(j.heap, j.maxDepth, root) && Fine(j, root, c) && c.tasks == [Say("<max>"), Leave(b)] + rest
    ensures Leads(j, root, c, n, rest)
  {
    hide Printable, Fine, Leads;
    assert c.tasks[1..] == [Leave(b)] + rest;
    OneStep(j, root, c);
    n := EndLeave(j, root, c, 1, b, rest);
  }

  /** After `m` steps only the bracket is left to be closed. */
  lemma EndLeave(j: Job, root: Value, c: Config, m: nat, b: Bracket, rest: seq<Task>) returns (n: nat)
    requires Printable(j.heap, j.maxDepth, root) && Leads(j, root, c, m, [Leave(b)] + rest)
    ensures Leads(j, root, c, n, rest)
  {
    hide Fine, Printable;
    var c1 := Run(j, m, c);
    assert c1.tasks[1..] == rest;
    OneStep(j, root, c1);
    LeadsTo(j, root, c, m, 1, rest);
    n := m + 1;
  }

  /** The tasks for parts of `v`, with `tail` to come after them; `rest` is what comes after `v`. */
  lemma {:induction false} EndParts(j: Job, root: Value, c: Config, ts: seq<Task>, tail: seq<Task>, rest: seq<Task>,
                                    v: Value, l: nat, seen: set<Value>) returns (n: nat)
    requires Printable(j.heap, j.maxDepth, root) && Fine(j, root, c) && c.tasks == ts + tail
    requires Composite(v) && Surrounds(j, seen, v) && Reached(j.heap, j.maxDepth, root, v, l)
    requires Within(j.maxDepth, l + 1) && OpenOf(tail) == OpenOf(rest)
    requires forall t :: t in ts ==> t.Say? || t.Count? || (t.Part? && t.level == l + 1 && t.value in Parts(j.heap, v))
    ensures Leads(j, root, c, n, tail)
    decreases Room(j, rest, l), Choice(j, seen, v), v, 0, |ts|
  {
    hide Printable, Fine, Reached, Leads, Surrounds, Room, Choice, Parts, OpenOf, Do;
    if ts == [] {
      assert ts + tail == tail;
      LeadsNowhere(j, root, c);
      n := 0;
    } else {
      var t := ts[0];
      var more := ts[1..] + tail;
      assert t in ts && c.tasks == [t] + more && c.tasks[1..] == more;
      var m: nat;
      if t.Part? {
        m := EndPart(j, root, c, ts, tail, rest, v, l, seen);
      } else {
        TextDone(j, c.s, t);
        OneStep(j, root, c);
        m := 1;
      }
      var c1 := Run(j, m, c);
      LeadsIsFine(j, root, c, m, more);
      var k := EndParts(j, root, c1, ts[1..], tail, rest, v, l, seen);
      LeadsTo(j, root, c, m, k, tail);
      n := m + k;
    }
  }

  lemma TextDone(j: Job, s: State, t: Task)
    requires t.Say? || t.Count?
    ensures Do(j, s, t).1 == []
  {
  }

  lemma LeadsNowhere(j: Job, root: Value, c: Config)
    requires Fine(j, root, c)
    ensures Leads(j, root, c, 0, c.tasks)
  {
  }

  lemma LeadsIsFine(j: Job, root: Value, c: Config, n: nat, rest: seq<Task>)
    requires Leads(j, root, c, n, rest)
    ensures Run(j, n, c).tasks == rest && Fine(j, root, Run(j, n, c))
  {
  }

  /** The first of the tasks for parts of `v`, which is a part. */
  lemma {:induction false} EndPart(j: Job, root: Value, c: Config, ts: seq<Task>, tail: seq<Task>, rest: seq<Task>,
                                   v: Value, l: nat, seen: set<Value>) returns (n: nat)
    requires Printable(j.heap, j.maxDepth, root) && Fine(j, root, c) && c.tasks == ts + tail && ts != [] && ts[0].Part?
    requires Composite(v) && Surrounds(j, seen, v) && Reached(j.heap, j.maxDepth, root, v, l)
    requires Within(j.maxDepth, l + 1) && OpenOf(tail) == OpenOf(rest)
    requires forall t :: t in ts ==> t.Say? || t.Count? || (t.Part? && t.level == l + 1 && t.value in Parts(j.heap, v))
    ensures Leads(j, root, c, n, ts[1..] + tail)
    decreases Room(j, rest, l), Choice(j, seen, v), v, 0, |ts| - 1
  {
    hide Printable, Fine, Reached, Leads, Surrounds, Parts, Room, Choice, OpenOf, Around;
    var t := ts[0];
    var more := ts[1..] + tail;
    assert t in ts && c.tasks == [t] + more;
    PartStep(j, c, t.value, l + 1, t.skipType, more);
    StepKeepsFine(j, root, c);
    hide Next;
    PartsOpen(ts[1..], tail);
    var around := if j.maxDepth == 0 then Around(j, seen, v) else {};
    PartHasRoom(j, root, seen, v, l, t.value, more, rest);
    PartSurrounded(j, seen, v, t.value);
    n := EndShow(j, root, Next(j, c), Unpack(t.value), l + 1, more, around);
    LeadsStep(j, root, c, n, more);
    n := n + 1;
  }

  lemma PartStep(j: Job, c: Config, u: Value, l: nat, skipType: bool, rest: seq<Task>)
    requires c.tasks == [Part(u, l, skipType)] + rest
    ensures Next(j, c).tasks == [Show(Unpack(u), l)] + rest
  {
    assert c.tasks[1..] == rest;
  }

  lemma PartSurrounded(j: Job, seen: set<Value>, v: Value, u: Value)
    requires Surrounds(j, seen, v) && Composite(v) && u in Parts(j.heap, v)
    ensures Surrounds(j, if j.maxDepth == 0 then Around(j, seen, v) else {}, Unpack(u))
  {
    hide Parts, Surrounds;
    SurroundsParts(j, seen, v, Unpack(u));
    NothingSurrounds(j, Unpack(u));
  }

  lemma PartsOpen(ts: seq<Task>, tail: seq<Task>)
    requires forall t :: t in ts ==> t.Say? || t.Count? || t.Part?
    ensures OpenOf(ts + tail) == OpenOf(tail)
    decreases |ts|
  {
    if ts == [] {
      assert ts + tail == tail;
    } else {
      assert (ts + tail)[1..] == ts[1..] + tail && ts[0] in ts;
      PartsOpen(ts[1..], tail);
      assert OpenBy(ts[0]) == [];
    }
  }

  /** Going from `v` to one of its parts uses up room. */
  lemma PartHasRoom(j: Job, root: Value, seen: set<Value>, v: Value, l: nat, u: Value, more: seq<Task>, rest: seq<Task>)
    requires Printable(j.heap, j.maxDepth, root) && Reached(j.heap, j.maxDepth, root, v, l)
    requires Surrounds(j, seen, v) && Composite(v) && u in Parts(j.heap, v)
    requires Within(j.maxDepth, l + 1) && OpenOf(more) == OpenOf(rest)
    ensures var around := if j.maxDepth == 0 then Around(j, seen, v) else {};
            || Room(j, more, l + 1) < Room(j, rest, l)
            || (&& Room(j, more, l + 1) == Room(j, rest, l)
                && (|| Choice(j, around, Unpack(u)) < Choice(j, seen, v)
                    || (Choice(j, around, Unpack(u)) == Choice(j, seen, v) && Unpack(u) < v)))
  {
    hide Printable, Reached, Surrounds, Parts, Choice;
    if j.maxDepth == 0 {
      PartsAreSmaller(j, root, seen, v, l, u);
    }
  }

  lemma BeginFine(j: Job, root: Value)
    ensures Fine(j, root, Begin(root))
  {
    BeginSound(j, root);
    BeginNested(j, root);
    hide Sound, Nested;
    assert Begin(root).tasks[1..] == [];
  }

  lemma BeginNested(j: Job, root: Value)
    ensures Nested(j, Begin(root))
  {
    assert Begin(root).tasks[1..] == [];
    assert OpenOf(Begin(root).tasks) == OpenBy(Show(root, 0)) + OpenOf([]) == [];
    assert Ready(j, [], 0, map[]);
  }

  /** If no loop of pointers is reached, nor, without a depth limit, anything that contains itself, the printer
      comes to an end. */
  lemma PrintableHalts(j: Job, root: Value) returns (n: nat)
    requires Printable(j.heap, j.maxDepth, root)
    ensures Run(j, n, Begin(root)).tasks == []
  {
    var c := Begin(root);
    BeginFine(j, root);
    hide Printable, Fine, Run;
    NothingSurrounds(j, root);
    assert c.tasks == [Show(root, 0)] + [];
    n := EndShow(j, root, c, root, 0, [], {});
  }
}
