/** Two values for which the conditions on printing are not necessary. */
module PrintingExamples {
  import opened Heaps
  import opened Printer
  import opened Balance
  import opened Halting
  import opened Printing

  // ---- long lists and the depth limit ----

  /** Seventeen elements: one too many to be shown in full. */
  const SEVENTEEN: Value := Array(seq(17, _ => Leaf("x")))

  /** A struct with a long list, and then a struct with a pointer to itself, two levels down. */
  const RAISED: Value := Struct([("a", SEVENTEEN), ("b", INNER)])

  const LOOP: Heap := map[0 := Box(Ptr(0))]

  const INNER: Value := Struct([("p", Ptr(0))])

  /** Text, counts and leaves take a fixed number of steps, and leave the depth as it is. */
  lemma {:induction false} LeavesEnd(j: Job, c: Config, ts: seq<Task>, tail: seq<Task>) returns (n: nat)
    requires c.tasks == ts + tail
    requires forall t :: t in ts ==> t.Say? || t.Count? || (t.Part? && t.value.Leaf?)
    ensures Run(j, n, c).tasks == tail && Run(j, n, c).s.depth == c.s.depth
    decreases |ts|
  {
    hide Next;
    if ts == [] {
      assert ts + tail == tail;
      n := 0;
    } else {
      var m, c1 := LeafEnds(j, c, ts[0], ts[1..] + tail);
      n := LeavesEnd(j, c1, ts[1..], tail);
      RunAdd(j, m, n, c);
      n := m + n;
    }
  }

  lemma LeafEnds(j: Job, c: Config, t: Task, rest: seq<Task>) returns (m: nat, c1: Config)
    requires c.tasks == [t] + rest && (t.Say? || t.Count? || (t.Part? && t.value.Leaf?))
    ensures c1 == Run(j, m, c) && c1.tasks == rest && c1.s.depth == c.s.depth && c1.s.pointers == c.s.pointers
    ensures t.Say? && NoMiddle(c) ==> NoMiddle(c1)
  {
    assert c.tasks[1..] == rest && [] + rest == rest;
    m, c1 := 1, Next(j, c);
    assert Run(j, 0, c1) == c1;
    if t.Part? {
      assert c1.tasks == [Show(t.value, t.level)] + rest && c1.tasks[1..] == rest;
      m, c1 := 2, Next(j, c1);
      assert Run(j, 1, Next(j, c)) == c1;
    }
  }

  /** No list was cut short so far. */
  ghost predicate NoMiddle(c: Config) {
    forall x :: x in c.s.out ==> !x.Middle?
  }

  /** The step that opens a composite value. */
  lemma OpenRun(j: Job, c: Config, v: Value, l: nat, rest: seq<Task>)
    requires c.tasks == [Show(v, l)] + rest && Composite(v)
    ensures var c' := Run(j, 1, c);
            && c'.tasks == ContentTasks(j, v, l + 1, c.s.depth + 1) + rest && c'.s.depth == c.s.depth + 1
            && c'.s.pointers == c.s.pointers && (NoMiddle(c) ==> NoMiddle(c'))
  {
    hide ContentTasks;
    assert c.tasks[1..] == rest;
    assert Run(j, 1, c) == Next(j, c);
  }

  /** The first two steps for a part that is composite. */
  lemma PartRun(j: Job, c: Config, v: Value, l: nat, rest: seq<Task>)
    requires c.tasks == [Part(v, l, false)] + rest && Composite(v)
    ensures var c' := Run(j, 2, c);
            && c'.tasks == ContentTasks(j, v, l + 1, c.s.depth + 1) + rest && c'.s.depth == c.s.depth + 1
            && c'.s.pointers == c.s.pointers && (NoMiddle(c) ==> NoMiddle(c'))
  {
    hide ContentTasks;
    assert c.tasks[1..] == rest;
    var c1 := Next(j, c);
    assert c1.tasks == [Show(v, l)] + rest;
    OpenRun(j, c1, v, l, rest);
  }

  lemma SeventeenTasks(j: Job, l: nat, d: int)
    requires Within(j.maxDepth, d)
    ensures forall t :: t in ContentTasks(j, SEVENTEEN, l, d) ==> t.Say? || t.Count? || (t.Part? && t.value.Leaf?)
  {
    PartTasksShow(j, SEVENTEEN, l);
    hide PartTasks;
    assert Long(j.heap, SEVENTEEN);
    forall t | t in PartTasks(j, SEVENTEEN, l) ensures t.Part? ==> t.value.Leaf? {
      assert t.Part? ==> t.value in SEVENTEEN.elems;
    }
  }

  /** The tasks for a struct with two fields at the top. */
  lemma TwoFieldTasks(j: Job, name: string, u: Value, name': string, u': Value)
    requires !j.plus && !j.sharp && Within(j.maxDepth, 1)
    ensures ContentTasks(j, Struct([(name, u), (name', u')]), 1, 1)
            == [Part(u, 1, false)] + ([Say(" ")] + ([Part(u', 1, false)] + [Leave(Structs)]))
  {
    var fs := [(name, u), (name', u')];
    assert StructTasks(j, fs, 2, 1) == [];
    assert StructTasks(j, fs, 1, 1) == [Say(" "), Part(u', 1, false)];
    assert StructTasks(j, fs, 0, 1) == [Part(u, 1, false), Say(" "), Part(u', 1, false)];
  }

  /** The last tasks: the depth is two already, so that the inner struct is not shown. */
  lemma HiddenEnds(j: Job, c: Config) returns (n: nat)
    requires j.maxDepth == 2 && c.s.depth == 2
    requires c.tasks == [Say(" ")] + ([Part(INNER, 1, false)] + [Leave(Structs)])
    ensures Run(j, n, c).tasks == []
  {
    hide Run;
    var m, c1 := LeafEnds(j, c, Say(" "), [Part(INNER, 1, false)] + [Leave(Structs)]);
    PartRun(j, c1, INNER, 1, [Leave(Structs)]);
    var c2 := Run(j, 2, c1);
    assert c2.tasks == [Say("<max>")] + [Leave(Structs), Leave(Structs)];
    RunAdd(j, m, 2, c);
    var k, c3 := LeafEnds(j, c2, Say("<max>"), [Leave(Structs), Leave(Structs)]);
    RunAdd(j, m + 2, k, c);
    LeaveRun(j, c3, Structs, [Leave(Structs)]);
    RunAdd(j, m + 2 + k, 1, c);
    LeaveRun(j, Run(j, 1, c3), Structs, []);
    RunAdd(j, m + 2 + k + 1, 1, c);
    n := m + 2 + k + 2;
  }

  lemma RaisedHalts(j: Job)
    requires !j.plus && !j.sharp && j.maxDepth == 2
    ensures Halts(j, RAISED)
  {
    hide Run, ContentTasks;
    var c := Begin(RAISED);
    var rest := [Say(" ")] + ([Part(INNER, 1, false)] + [Leave(Structs)]);
    assert c.tasks == [Show(RAISED, 0)] + [];
    OpenRun(j, c, RAISED, 0, []);
    TwoFieldTasks(j, "a", SEVENTEEN, "b", INNER);
    var c1 := Run(j, 1, c);
    assert c1.tasks == [Part(SEVENTEEN, 1, false)] + rest;
    PartRun(j, c1, SEVENTEEN, 1, rest);
    var c2 := Run(j, 2, c1);
    RunAdd(j, 1, 2, c);
    SeventeenTasks(j, 2, 2);
    var m := LeavesEnd(j, c2, ContentTasks(j, SEVENTEEN, 2, 2), rest);
    RunAdd(j, 3, m, c);
    var n := HiddenEnds(j, Run(j, m, c2));
    RunAdd(j, 3 + m, n, c);
  }

  lemma RaisedUnprintable()
    ensures !Printable(LOOP, 2, RAISED)
  {
    SelfLoop(LOOP);
    hide PointerLoop, Hops;
    assert FieldParts(INNER.fields, 1) == [];
    assert FieldParts(INNER.fields, 0) == [Ptr(0)];
    assert Kid(LOOP, INNER, Ptr(0)) by {
      assert Ptr(0) in Parts(LOOP, INNER) && Unpack(Ptr(0)) == Ptr(0);
    }
    assert FieldParts(RAISED.fields, 2) == [];
    assert FieldParts(RAISED.fields, 1) == [INNER];
    assert FieldParts(RAISED.fields, 0) == [SEVENTEEN, INNER];
    assert Kid(LOOP, RAISED, INNER) by {
      assert INNER in Parts(LOOP, RAISED) && Unpack(INNER) == INNER;
    }
    hide Kid, Reached;
    RootReached(LOOP, 2, RAISED);
    KidReached(LOOP, 2, RAISED, RAISED, 0, INNER, 1);
    KidReached(LOOP, 2, RAISED, INNER, 1, Ptr(0), 2);
  }

  /** With a depth limit and a long list the condition is not necessary: the long list leaves the depth raised,
      and hides a loop of pointers that lies within the limit. */
  lemma RaisedDepthHidesLoop(at: nat -> nat, typeName: Value -> string)
    ensures !Printable(LOOP, 2, RAISED) && Halts(Job(LOOP, at, typeName, false, false, 2), RAISED)
  {
    RaisedUnprintable();
    RaisedHalts(Job(LOOP, at, typeName, false, false, 2));
  }

  // ---- two objects with one address ----

  /** A pointer to itself; a struct whose second field is `y`; its first field; a slice with a pointer to it. */
  function SharedHeap(y: Value): Heap {
    map[0 := Box(Ptr(0)),
        1 := Box(Struct([("X", Leaf("7")), ("Y", y)])),
        2 := Box(Leaf("7")),
        3 := Elements([Ptr(1)])]
  }

  /** A pointer to the first field of the struct, and then the slice. */
  const SHARED: Value := Struct([("A", Ptr(2)), ("B", List(3))])

  /** The first two steps for a pointer that is a part: the table is pruned. */
  lemma PointerPart(j: Job, c: Config, a: nat, l: nat, skipType: bool, rest: seq<Task>)
    requires c.tasks == [Part(Ptr(a), l, skipType)] + rest && NoMiddle(c)
    ensures var c' := Run(j, 2, c);
            && c'.tasks == [Chase(Ptr(a), l, [])] + rest && c'.s.depth == c.s.depth && NoMiddle(c')
            && c'.s.pointers == Pruned(c.s.pointers, c.s.depth)
  {
    assert c.tasks[1..] == rest;
    var c1 := Next(j, c);
    assert c1.tasks == [Show(Ptr(a), l)] + rest && c1.tasks[1..] == rest;
    var c2 := Next(j, c1);
    assert Run(j, 1, c1) == c2;
  }

  /** A pointer whose address is in the table at a smaller depth is not followed. */
  lemma RecordedChase(j: Job, c: Config, a: nat, l: nat, rest: seq<Task>)
    requires c.tasks == [Chase(Ptr(a), l, [])] + rest && Recorded(j, c.s, a) && NoMiddle(c)
    ensures var c' := Run(j, 2, c); c'.tasks == rest && c'.s.depth == c.s.depth && NoMiddle(c')
  {
    assert c.tasks[1..] == rest;
    var c1 := Next(j, c);
    assert c1.tasks == [Return([])] + rest && c1.tasks[1..] == rest && [] + rest == rest;
    var c2 := Next(j, c1);
    assert Run(j, 1, c1) == c2;
  }

  /** A pointer to a leaf is followed, and its address recorded. */
  lemma LeafChase(j: Job, c: Config, a: nat, l: nat, rest: seq<Task>)
    requires c.tasks == [Chase(Ptr(a), l, [])] + rest && Follows(j, c.s, Ptr(a)) && j.heap[a].value.Leaf? && NoMiddle(c)
    ensures var c' := Run(j, 4, c);
            && c'.tasks == rest && c'.s.depth == c.s.depth && NoMiddle(c')
            && c'.s.pointers == c.s.pointers[j.at(a) := c.s.depth]
  {
    var leaf := j.heap[a].value;
    assert c.tasks[1..] == rest;
    var c1 := Next(j, c);
    assert [a] + [] == [a];
    assert c1.tasks == [Chase(leaf, l, [a])] + rest && c1.tasks[1..] == rest;
    LeafShown(j, c1, leaf, l, [a], rest);
  }

  lemma LeafShown(j: Job, c: Config, leaf: Value, l: nat, chain: seq<nat>, rest: seq<Task>)
    requires c.tasks == [Chase(leaf, l, chain)] + rest && leaf.Leaf? && NoMiddle(c)
    ensures var c' := Run(j, 3, c);
            c'.tasks == rest && c'.s.depth == c.s.depth && NoMiddle(c') && c'.s.pointers == c.s.pointers
  {
    assert c.tasks[1..] == rest;
    var c1 := Next(j, c);
    assert c1.tasks == [Show(leaf, l)] + ([Return(chain)] + rest);
    assert c1.tasks[1..] == [Return(chain)] + rest && [] + ([Return(chain)] + rest) == [Return(chain)] + rest;
    var c2 := Next(j, c1);
    assert c2.tasks[1..] == rest && [] + rest == rest;
    var c3 := Next(j, c2);
    assert Run(j, 1, c2) == c3;
    assert Run(j, 2, c1) == c3;
  }

  lemma LeaveRun(j: Job, c: Config, b: Bracket, rest: seq<Task>)
    requires c.tasks == [Leave(b)] + rest
    ensures var c' := Run(j, 1, c); c'.tasks == rest && (NoMiddle(c) ==> NoMiddle(c'))
  {
    assert c.tasks[1..] == rest && [] + rest == rest;
    assert Run(j, 1, c) == Next(j, c);
  }

  /** A job on the shared heap: the struct and its first field have one address. */
  ghost predicate SharedJob(j: Job, y: Value) {
    j.heap == SharedHeap(y) && j.at(1) == j.at(2) && !j.sharp && !j.plus && j.maxDepth == 0
  }

  lemma SliceTasks(j: Job, v: Value, u: Value)
    requires v.List? && Elems(j.heap, v) == [u] && j.maxDepth == 0
    ensures ContentTasks(j, v, 2, 2) == [Part(u, 2, true)] + [Leave(Lists)]
  {
    assert ListTasks([u], 1, 1, 2) == [];
    assert ListTasks([u], 0, 1, 2) == [Part(u, 2, true)];
  }

  /** The first field of the value: its address is recorded at depth one. */
  lemma FirstField(j: Job, y: Value) returns (n: nat)
    requires SharedJob(j, y)
    ensures var c := Run(j, n, Begin(SHARED));
            && c.tasks == [Part(List(3), 1, false)] + [Leave(Structs)] && c.s.depth == 1 && NoMiddle(c)
            && j.at(2) in c.s.pointers && c.s.pointers[j.at(2)] == 1
  {
    hide Run, ContentTasks;
    var last := [Part(List(3), 1, false)] + [Leave(Structs)];
    var c := Begin(SHARED);
    assert c.tasks == [Show(SHARED, 0)] + [];
    OpenRun(j, c, SHARED, 0, []);
    TwoFieldTasks(j, "A", Ptr(2), "B", List(3));
    var c1 := Run(j, 1, c);
    assert c1.tasks == [Part(Ptr(2), 1, false)] + ([Say(" ")] + last);
    PointerPart(j, c1, 2, 1, false, [Say(" ")] + last);
    var c2 := Run(j, 2, c1);
    RunAdd(j, 1, 2, c);
    LeafChase(j, c2, 2, 1, [Say(" ")] + last);
    var c3 := Run(j, 4, c2);
    RunAdd(j, 3, 4, c);
    var m, c4 := LeafEnds(j, c3, Say(" "), last);
    RunAdd(j, 7, m, c);
    n := 7 + m;
  }

  /** The slice: the pointer to the struct has the same address, and is not followed. */
  lemma SecondField(j: Job, y: Value, c: Config)
    requires SharedJob(j, y) && c.tasks == [Part(List(3), 1, false)] + [Leave(Structs)] && c.s.depth == 1 && NoMiddle(c)
    requires j.at(2) in c.s.pointers && c.s.pointers[j.at(2)] == 1
    ensures Run(j, 8, c).tasks == [] && NoMiddle(Run(j, 8, c))
  {
    hide Run, ContentTasks;
    var leaves := [Leave(Lists)] + [Leave(Structs)];
    PartRun(j, c, List(3), 1, [Leave(Structs)]);
    SliceTasks(j, List(3), Ptr(1));
    var c1 := Run(j, 2, c);
    assert c1.tasks == [Part(Ptr(1), 2, true)] + leaves;
    PointerPart(j, c1, 1, 2, true, leaves);
    var c2 := Run(j, 2, c1);
    RunAdd(j, 2, 2, c);
    RecordedChase(j, c2, 1, 2, leaves);
    var c3 := Run(j, 2, c2);
    RunAdd(j, 4, 2, c);
    LeaveRun(j, c3, Lists, [Leave(Structs)]);
    var c4 := Run(j, 1, c3);
    RunAdd(j, 6, 1, c);
    assert c4.tasks == [Leave(Structs)] + [];
    LeaveRun(j, c4, Structs, []);
    RunAdd(j, 7, 1, c);
  }

  /** Whatever the second field of the struct is, it is never met: the printer ends, and cuts nothing short. */
  lemma SharedEnds(j: Job, y: Value) returns (n: nat)
    requires SharedJob(j, y)
    ensures Run(j, n, Begin(SHARED)).tasks == [] && NoMiddle(Run(j, n, Begin(SHARED)))
  {
    hide Run;
    n := FirstField(j, y);
    SecondField(j, y, Run(j, n, Begin(SHARED)));
    RunAdd(j, n, 8, Begin(SHARED));
    n := n + 8;
  }

  lemma FieldKid(heap: Heap, v: Value, name: string, u: Value, name': string, u': Value)
    requires v == Struct([(name, u), (name', u')]) && !u'.Iface?
    ensures Kid(heap, v, u')
  {
    var fs := [(name, u), (name', u')];
    assert FieldParts(fs, 2) == [];
    assert FieldParts(fs, 1) == [u'];
    assert FieldParts(fs, 0) == [u, u'];
    PartIsKid(heap, v, u');
  }

  lemma HiddenFieldReached(j: Job, y: Value)
    requires SharedJob(j, y) && !y.Iface?
    ensures Reached(j.heap, 0, SHARED, y, 3)
  {
    var heap := j.heap;
    var st := Struct([("X", Leaf("7")), ("Y", y)]);
    assert Parts(heap, List(3)) == [Ptr(1)] && Parts(heap, Ptr(1)) == [st];
    hide SharedHeap, SharedJob, Parts, Kid, Reached;
    FieldKid(heap, SHARED, "A", Ptr(2), "B", List(3));
    PartIsKid(heap, List(3), Ptr(1));
    PartIsKid(heap, Ptr(1), st);
    FieldKid(heap, st, "X", Leaf("7"), "Y", y);
    RootReached(heap, 0, SHARED);
    KidReached(heap, 0, SHARED, SHARED, 0, List(3), 1);
    KidReached(heap, 0, SHARED, List(3), 1, Ptr(1), 2);
    KidReached(heap, 0, SHARED, Ptr(1), 2, st, 2);
    KidReached(heap, 0, SHARED, st, 2, y, 3);
  }

  lemma PartIsKid(heap: Heap, v: Value, u: Value)
    requires u in Parts(heap, v) && !u.Iface?
    ensures Kid(heap, v, u)
  {
    assert Unpack(u) == u;
  }

  /** Where a struct and its first field have one address, the conditions are not necessary: a pointer to the first
      field hides the struct. The printer ends although a loop of pointers is reached, and nothing is cut short
      although a long list is reached. */
  lemma SharedAddressHides(at: nat -> nat, typeName: Value -> string)
    requires at(1) == at(2)
    ensures var j := Job(SharedHeap(Ptr(0)), at, typeName, false, false, 0);
            Halts(j, SHARED) && !Printable(j.heap, 0, SHARED)
    ensures var k := Job(SharedHeap(SEVENTEEN), at, typeName, false, false, 0);
            !NothingLong(k, SHARED) && exists out :: PrintOut(k, SHARED, out) && Cuts(out) == 0
  {
    var j := Job(SharedHeap(Ptr(0)), at, typeName, false, false, 0);
    var k := Job(SharedHeap(SEVENTEEN), at, typeName, false, false, 0);
    var n := SharedEnds(j, Ptr(0));
    var m := SharedEnds(k, SEVENTEEN);
    HiddenFieldReached(j, Ptr(0));
    HiddenFieldReached(k, SEVENTEEN);
    SelfLoop(j.heap);
    hide Run, Reached, PointerLoop;
    assert Ptr(0).Ptr? && PointerLoop(j.heap, Ptr(0).addr);
    assert Long(k.heap, SEVENTEEN) && |Elems(k.heap, SEVENTEEN)| == 17;
    assert ReachesLong(k.heap, k.maxDepth, SHARED, 17);
    NoCuts(Run(k, m, Begin(SHARED)).s.out);
    assert PrintOut(k, SHARED, Run(k, m, Begin(SHARED)).s.out);
  }

  lemma SelfLoop(heap: Heap)
    requires 0 in heap && heap[0] == Box(Ptr(0))
    ensures PointerLoop(heap, 0)
  {
    assert Hops(heap, 0, 0).Some? && Hops(heap, 0, 1) == Hops(heap, 0, 0);
  }
}
