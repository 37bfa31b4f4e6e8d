/** What holds of every print-out, and when there is one. */
module Printing {
  import opened Wrappers
  import opened Heaps
  import opened Printer
  import opened Trace
  import opened Nesting
  import opened Balance
  import opened Brackets
  import opened Halting
  import opened Ending

  /** `out` is what the printer has written when it comes to its end. */
  ghost predicate PrintOut(j: Job, root: Value, out: seq<Chunk>) {
    exists n: nat :: Run(j, n, Begin(root)).tasks == [] && Run(j, n, Begin(root)).s.out == out
  }

  // ---- when the printer comes to an end ----

  /** No list too long to be shown in full is reached. */
  ghost predicate NothingLong(j: Job, root: Value) {
    forall n: nat :: !ReachesLong(j.heap, j.maxDepth, root, n)
  }

  lemma RunIsSound(j: Job, root: Value, n: nat)
    ensures Sound(j, root, Run(j, n, Begin(root)))
  {
    hide Sound;
    BeginSound(j, root);
    RunKeepsSound(j, root, n, Begin(root));
  }

  lemma NothingCut(j: Job, root: Value, n: nat)
    requires NothingLong(j, root)
    ensures Uncut(Run(j, n, Begin(root)))
  {
    hide Run, ReachesLong, Reached, Levels;
    var c := Run(j, n, Begin(root));
    RunIsSound(j, root, n);
    forall x | x in c.s.out ensures !x.Middle? {
      assert SoundChunk(j, root, x);
    }
    forall t | t in c.tasks ensures !t.Count? {
      assert SoundTask(j, root, t);
    }
  }

  lemma HaltedIsPrintable(j: Job, root: Value, n: nat)
    requires Run(j, n, Begin(root)).tasks == [] && (j.maxDepth == 0 || NothingLong(j, root)) && OneAddress(j, root)
    ensures Printable(j.heap, j.maxDepth, root)
  {
    if j.maxDepth != 0 {
      NothingCut(j, root, n);
    }
    hide PointerLoop, ContentLoop, Reached, Run, NothingLong, Uncut, OneAddress;
    forall w, l: nat | Reached(j.heap, j.maxDepth, root, w, l)
      ensures !(w.Ptr? && PointerLoop(j.heap, w.addr)) && (j.maxDepth == 0 ==> !ContentLoop(j.heap, w))
    {
      if w.Ptr? {
        NoPointerLoopReached(j, root, n, w.addr, l);
      }
      if j.maxDepth == 0 {
        NoContentLoopReached(j, root, n, w, l);
      }
    }
  }

  /** As long as different pointers have different addresses: without a depth limit, the printer comes to an end
      exactly if no loop of pointers alone is reached and nothing that contains itself without a pointer in between.
      With a limit, the loops of pointers within the limit decide, provided no long list is within the limit. */
  lemma HaltsIffPrintable(j: Job, root: Value)
    requires (j.maxDepth == 0 || NothingLong(j, root)) && OneAddress(j, root)
    ensures Halts(j, root) <==> Printable(j.heap, j.maxDepth, root)
  {
    hide Printable, NothingLong, Run, OneAddress;
    if Printable(j.heap, j.maxDepth, root) {
      var n := PrintableHalts(j, root);
    }
    if Halts(j, root) {
      var n: nat :| Run(j, n, Begin(root)).tasks == [];
      HaltedIsPrintable(j, root, n);
    }
  }

  lemma ItselfInside(heap: Heap, v: Value)
    requires !v.Ptr? && Iface(v) in Parts(heap, v)
    ensures ContentLoop(heap, v)
  {
    assert Kid(heap, v, v) by {
      assert Unpack(Iface(v)) == v;
    }
    assert Inside(heap, 0, v, v);
    assert Inside(heap, 1, v, v);
  }

  /** A slice whose only element is the slice itself, and a map whose only value is the map itself, are never
      printed to the end without a depth limit. */
  lemma SelfContainingNeverEnds(at: nat -> nat, typeName: Value -> string, sharp: bool, plus: bool, key: Value)
    ensures !Halts(Job(map[0 := Elements([Iface(List(0))])], at, typeName, sharp, plus, 0), List(0))
    ensures !Halts(Job(map[0 := Entries([(key, Iface(Map(0)))])], at, typeName, sharp, plus, 0), Map(0))
  {
    var s := Job(map[0 := Elements([Iface(List(0))])], at, typeName, sharp, plus, 0);
    var m := Job(map[0 := Entries([(key, Iface(Map(0)))])], at, typeName, sharp, plus, 0);
    ItselfInside(s.heap, List(0));
    assert Iface(Map(0)) in EntryParts([(key, Iface(Map(0)))], 0);
    ItselfInside(m.heap, Map(0));
    RootReached(s.heap, 0, List(0));
    RootReached(m.heap, 0, Map(0));
    assert OneAddress(s, List(0)) && OneAddress(m, Map(0));
    hide Halts, ContentLoop, Reached, OneAddress;
    HaltsIffPrintable(s, List(0));
    HaltsIffPrintable(m, Map(0));
  }

  // ---- lists cut short ----

  lemma {:induction false} NoCuts(out: seq<Chunk>)
    ensures Cuts(out) == 0 <==> forall x :: x in out ==> !x.Middle?
    decreases |out|
  {
    if out != [] {
      var n := |out| - 1;
      NoCuts(out[..n]);
      assert out == out[..n] + [out[n]];
    }
  }

  /** Only lists of more than 16 elements that are reached within the depth limit are cut short. As long as
      different pointers have different addresses: if there are any, some list is, and without a depth limit all of
      them are. */
  lemma CutIffLong(j: Job, root: Value, out: seq<Chunk>)
    requires PrintOut(j, root, out)
    ensures forall n :: Middle(n) in out ==> ReachesLong(j.heap, j.maxDepth, root, n) && n > 16
    ensures NothingLong(j, root) ==> Cuts(out) == 0
    ensures OneAddress(j, root) ==> (Cuts(out) == 0 <==> NothingLong(j, root))
    ensures OneAddress(j, root) && j.maxDepth == 0 ==>
              forall n: nat :: ReachesLong(j.heap, j.maxDepth, root, n) ==> Middle(n) in out
  {
    var k: nat :| Run(j, k, Begin(root)).tasks == [] && Run(j, k, Begin(root)).s.out == out;
    var c := Run(j, k, Begin(root));
    RunIsSound(j, root, k);
    NoCuts(out);
    hide Run, Levels, Cuts, Reached, OneAddress;
    forall n | Middle(n) in out ensures ReachesLong(j.heap, j.maxDepth, root, n) && n > 16 {
      assert SoundChunk(j, root, Middle(n));
    }
    if OneAddress(j, root) && (j.maxDepth == 0 || Cuts(out) == 0) {
      forall n: nat | ReachesLong(j.heap, j.maxDepth, root, n) ensures Middle(n) in out {
        LongIsCut(j, root, k, n);
      }
    }
  }

  lemma LongIsCut(j: Job, root: Value, k: nat, n: nat)
    requires Run(j, k, Begin(root)).tasks == [] && ReachesLong(j.heap, j.maxDepth, root, n)
    requires (j.maxDepth == 0 || Uncut(Run(j, k, Begin(root)))) && OneAddress(j, root)
    ensures Middle(n) in Run(j, k, Begin(root)).s.out
  {
    hide Run, Uncut, Reached, OneAddress;
    var w, l: nat :|
      Reached(j.heap, j.maxDepth, root, w, l) && Long(j.heap, w) && |Elems(j.heap, w)| == n
      && Within(j.maxDepth, l + 1);
    EverythingShown(j, root, k, w, l);
  }

  // ---- brackets ----

  lemma {:induction false} RunKeepsBooked(j: Job, n: nat, c: Config)
    requires Booked(c)
    ensures Booked(Run(j, n, c))
    decreases n
  {
    hide Booked, Next;
    if n > 0 && c.tasks != [] {
      StepKeepsBooked(j, c);
      RunKeepsBooked(j, n - 1, Next(j, c));
    }
  }

  lemma BeginBooked(root: Value)
    ensures Booked(Begin(root))
  {
    hide Debts, Plus;
    DebtsOne(Show(root, 0));
    PlusNil(NIL);
  }

  lemma EndBooked(c: Config)
    requires Booked(c) && c.tasks == []
    ensures var out := c.s.out;
            Unclosed(out, Maps) == 0 && Unclosed(out, Structs) == 0 && Unclosed(out, Lists) == Cuts(out)
  {
    TotalIs(c.s.out);
    hide Total, Unclosed, Cuts;
  }

  /** The brackets of maps and structs balance, and one bracket of a list stays open for each list cut short. All
      brackets are properly nested exactly if no list is cut short. */
  lemma BracketsNestIffNothingCut(j: Job, root: Value, out: seq<Chunk>)
    requires PrintOut(j, root, out)
    ensures Unclosed(out, Maps) == 0 && Unclosed(out, Structs) == 0 && Unclosed(out, Lists) == Cuts(out)
    ensures Pairs(out) == Some([]) <==> Cuts(out) == 0
  {
    var k: nat :| Run(j, k, Begin(root)).tasks == [] && Run(j, k, Begin(root)).s.out == out;
    hide Run, Booked, Unclosed, Cuts, Pairs;
    BeginBooked(root);
    RunKeepsBooked(j, k, Begin(root));
    EndBooked(Run(j, k, Begin(root)));
    if Pairs(out) == Some([]) {
      PairsCount(out, Lists);
    }
    if Cuts(out) == 0 {
      NoCuts(out);
      UncutIsPaired(j, root, k);
    }
  }

  lemma UncutIsPaired(j: Job, root: Value, k: nat)
    requires Run(j, k, Begin(root)).tasks == [] && Uncut(Run(j, k, Begin(root)))
    ensures Pairs(Run(j, k, Begin(root)).s.out) == Some([])
  {
    NoLeaves(Begin(root).tasks);
    assert Paired(Begin(root));
    RunKeepsPaired(j, k, Begin(root));
    hide Run, Uncut;
  }

  /** If no list of more than 16 elements is reached within the depth limit, the brackets are properly nested. As
      long as different pointers have different addresses, that is exactly when they are, and exactly when they
      balance. */
  lemma BracketsNestIffNothingLong(j: Job, root: Value, out: seq<Chunk>)
    requires PrintOut(j, root, out)
    ensures NothingLong(j, root) ==> Pairs(out) == Some([])
    ensures OneAddress(j, root) ==> (Pairs(out) == Some([]) <==> NothingLong(j, root))
    ensures OneAddress(j, root) ==> (Unclosed(out, Lists) == 0 <==> NothingLong(j, root))
  {
    hide PrintOut, NothingLong, OneAddress, Pairs, Unclosed, Cuts;
    CutIffLong(j, root, out);
    BracketsNestIffNothingCut(j, root, out);
  }

  // ---- expansions ----

  /** Nested and tracked, or going round a loop of pointers for ever. */
  ghost predicate NestedOrLoops(j: Job, c: Config) {
    (Nested(j, c) && Tracked(j, c)) || exists a :: PointerLoop(j.heap, a) && InLoop(j, a, c)
  }

  lemma StepNestedOrLoops(j: Job, c: Config)
    requires NestedOrLoops(j, c) && c.tasks != []
    ensures NestedOrLoops(j, Next(j, c))
  {
    hide Nested, Tracked, PointerLoop, InLoop, Next;
    if Nested(j, c) && Tracked(j, c) {
      if Repeats(c.tasks[0]) {
        RepeatingLoops(j, c);
        LoopStep(j, c.tasks[0].value.addr, c);
      } else {
        StepKeepsNested(j, c);
        StepKeepsTracked(j, c);
      }
    } else {
      var a :| PointerLoop(j.heap, a) && InLoop(j, a, c);
      LoopStep(j, a, c);
    }
  }

  lemma {:induction false} RunNestedOrLoops(j: Job, n: nat, c: Config)
    requires NestedOrLoops(j, c)
    ensures NestedOrLoops(j, Run(j, n, c))
    decreases n
  {
    hide NestedOrLoops, Next;
    if n > 0 && c.tasks != [] {
      StepNestedOrLoops(j, c);
      RunNestedOrLoops(j, n - 1, Next(j, c));
    }
  }

  /** At every moment of a run that ends, the nesting holds. */
  lemma EndingRunIsNested(j: Job, root: Value, k: nat, n: nat)
    requires Run(j, k, Begin(root)).tasks == []
    ensures Nested(j, Run(j, n, Begin(root)))
  {
    var c := Run(j, n, Begin(root));
    BeginNested(j, root);
    assert Tracked(j, Begin(root));
    hide Nested, Tracked;
    RunNestedOrLoops(j, n, Begin(root));
    if a :| PointerLoop(j.heap, a) && InLoop(j, a, c) {
      FollowsForEver(j, a, k, c);
      RunAdd(j, n, k, Begin(root));
      RunAdd(j, k, n, Begin(root));
      assert false;
    }
  }

  /** Read over any print-out, no object is followed inside its own expansion, and every expansion is left again. */
  lemma NoExpansionInsideItself(j: Job, root: Value, out: seq<Chunk>)
    requires PrintOut(j, root, out)
    ensures Scan(out) == Some([])
  {
    var k: nat :| Run(j, k, Begin(root)).tasks == [] && Run(j, k, Begin(root)).s.out == out;
    EndingRunIsNested(j, root, k, k);
    hide Run;
  }

  /** At every moment of a run that ends, the objects that a reader of the output finds open are those being
      expanded; when the printer comes to a pointer, the addresses of all that were open before it are in the table,
      below the current depth. */
  lemma AncestorsRecorded(j: Job, root: Value, n: nat)
    requires Halts(j, root)
    ensures var c := Run(j, n, Begin(root));
            && Scan(c.s.out) == Some(OpenOf(c.tasks))
            && (c.tasks != [] && (c.tasks[0].Chase? || (c.tasks[0].Show? && c.tasks[0].value.Ptr?)) ==>
                  AllBelow(j, OpenOf(c.tasks[1..]), c.s.pointers, c.s.depth))
  {
    var k: nat :| Run(j, k, Begin(root)).tasks == [];
    EndingRunIsNested(j, root, k, n);
    hide Run, Scan, OpenOf;
  }

  /** Every pointer that is reached is followed, whenever it is not hidden by a depth limit. */
  lemma EveryPointerFollowed(j: Job, root: Value, out: seq<Chunk>, a: nat, l: nat)
    requires PrintOut(j, root, out) && (j.maxDepth == 0 || NothingLong(j, root)) && OneAddress(j, root)
    requires Reached(j.heap, j.maxDepth, root, Ptr(a), l) && Boxed(j.heap, a)
    ensures Into(a) in out
  {
    var k: nat :| Run(j, k, Begin(root)).tasks == [] && Run(j, k, Begin(root)).s.out == out;
    if j.maxDepth != 0 {
      NothingCut(j, root, k);
    }
    hide Run, Reached, NothingLong, Uncut, OneAddress;
    EverythingShown(j, root, k, Ptr(a), l);
  }

  // ---- the table of addresses ----

  /** The table says that a pointer to the address `x` was followed at depth `d`. */
  ghost predicate Entry(c: Config, x: nat, d: int) {
    x in c.s.pointers && c.s.pointers[x] == d
  }

  /** The next step follows a pointer to `x`, at depth `d`. */
  ghost predicate FollowsNow(j: Job, c: Config, x: nat, d: int) {
    && c.tasks != [] && c.tasks[0].Chase? && c.tasks[0].value.Ptr? && c.s.depth == d
    && var a := c.tasks[0].value.addr;
    && Boxed(j.heap, a) && j.at(a) == x && !(x in c.s.pointers && c.s.pointers[x] < d)
  }

  /** The next step turns to a pointer at depth `d` or less; a nil pointer counts only if its type is shown. */
  ghost predicate TurnsToPointer(j: Job, c: Config, d: int) {
    && c.tasks != [] && c.tasks[0].Show? && c.s.depth <= d
    && var v := c.tasks[0].value; (v.Ptr? || (v.NilPtr? && j.sharp && !c.s.ignoreType))
  }

  lemma TableStep(j: Job, c: Config, x: nat, d: int)
    requires c.tasks != []
    ensures Entry(Next(j, c), x, d) <==>
            || FollowsNow(j, c, x, d)
            || (Entry(c, x, d) && !FollowsNow(j, c, x, c.s.depth) && !TurnsToPointer(j, c, d))
  {
    hide ContentTasks, Stars;
  }

  /** Nothing happens at step `k` that makes the printer forget that it followed a pointer to `x` at depth `d`. */
  ghost predicate Kept(j: Job, root: Value, k: nat, x: nat, d: int) {
    var c := Run(j, k, Begin(root));
    !FollowsNow(j, c, x, c.s.depth) && !TurnsToPointer(j, c, d)
  }

  /** At step `m` a pointer to `x` was followed at depth `d`, which was not forgotten before step `n`. */
  ghost predicate Remembered(j: Job, root: Value, m: nat, n: nat, x: nat, d: int) {
    FollowsNow(j, Run(j, m, Begin(root)), x, d) && forall k: nat :: m < k < n ==> Kept(j, root, k, x, d)
  }

  /** What the table holds, as a matter of history: a pointer to `x` was followed at depth `d`, and since then neither
      followed again nor did the printer turn to a pointer at that depth or less. */
  lemma {:induction false} TableIsHistory(j: Job, root: Value, n: nat, x: nat, d: int)
    ensures Entry(Run(j, n, Begin(root)), x, d) <==> exists m: nat :: m < n && Remembered(j, root, m, n, x, d)
  {
    hide Run, Next, Entry, FollowsNow, Kept, Remembered;
    if n == 0 {
      StartsEmpty(j, root, x, d);
    } else {
      var p: nat := n - 1;
      EntryMoves(j, root, p, x, d);
      TableIsHistory(j, root, p, x, d);
      RememberedNow(j, root, p, x, d);
      if m: nat :| m < p && Remembered(j, root, m, p, x, d) {
        RememberedLonger(j, root, m, p, x, d);
      }
      if m: nat :| m < n && Remembered(j, root, m, n, x, d) {
        if m < p {
          RememberedLonger(j, root, m, p, x, d);
        }
      }
    }
  }

  lemma StartsEmpty(j: Job, root: Value, x: nat, d: int)
    ensures !Entry(Run(j, 0, Begin(root)), x, d)
  {
  }

  lemma EntryMoves(j: Job, root: Value, n: nat, x: nat, d: int)
    ensures var c := Run(j, n, Begin(root));
            Entry(Run(j, n + 1, Begin(root)), x, d) <==>
            FollowsNow(j, c, x, d) || (Entry(c, x, d) && Kept(j, root, n, x, d))
  {
    var c := Run(j, n, Begin(root));
    RunAdd(j, n, 1, Begin(root));
    assert Run(j, 1, c) == if c.tasks == [] then c else Next(j, c);
    hide Run, Next, Entry;
    if c.tasks != [] {
      TableStep(j, c, x, d);
    }
  }

  lemma RememberedLonger(j: Job, root: Value, m: nat, n: nat, x: nat, d: int)
    requires m < n
    ensures Remembered(j, root, m, n + 1, x, d) <==> Remembered(j, root, m, n, x, d) && Kept(j, root, n, x, d)
  {
    hide Run, FollowsNow, Kept;
  }

  lemma RememberedNow(j: Job, root: Value, n: nat, x: nat, d: int)
    ensures Remembered(j, root, n, n + 1, x, d) <==> FollowsNow(j, Run(j, n, Begin(root)), x, d)
  {
    hide Run, FollowsNow;
  }

  /** When the printer comes to a pointer, it takes it for one already shown exactly if a pointer to the same address
      was followed at a smaller depth, and not forgotten since. */
  lemma ShownIffRemembered(j: Job, root: Value, n: nat)
    requires var c := Run(j, n, Begin(root));
             c.tasks != [] && c.tasks[0].Chase? && c.tasks[0].value.Ptr? && Boxed(j.heap, c.tasks[0].value.addr)
    ensures var c, a := Run(j, n, Begin(root)), Run(j, n, Begin(root)).tasks[0].value.addr;
            (Into(a) in Next(j, c).s.out[|c.s.out|..]) <==>
            !exists m: nat, d: int :: m < n && d < c.s.depth && Remembered(j, root, m, n, j.at(a), d)
  {
    var c := Run(j, n, Begin(root));
    var a := c.tasks[0].value.addr;
    var x := j.at(a);
    ShownIffRecorded(j, c);
    hide Run, Remembered, Next;
    if Recorded(j, c.s, a) {
      TableIsHistory(j, root, n, x, c.s.pointers[x]);
    }
    forall m: nat, d: int | m < n && d < c.s.depth && Remembered(j, root, m, n, x, d)
      ensures Recorded(j, c.s, a)
    {
      TableIsHistory(j, root, n, x, d);
    }
  }

  lemma ShownIffRecorded(j: Job, c: Config)
    requires c.tasks != [] && c.tasks[0].Chase? && c.tasks[0].value.Ptr? && Boxed(j.heap, c.tasks[0].value.addr)
    ensures var a := c.tasks[0].value.addr;
            Into(a) in Next(j, c).s.out[|c.s.out|..] <==> !Recorded(j, c.s, a)
  {
    hide Stars;
  }
}
