/** Values to print, the heap they live in, and what can be reached from a value. */
module Heaps {
  import opened Wrappers
  import opened Sets

  /** A value. Pointers, slices (`List`) and maps refer to objects in the heap; everything else is stored inline.
      Objects are named by numbers. A name is not an address: a struct and its first field are two objects with
      one address. */
  datatype Value =
    | Leaf(text: string)
    | NilPtr
    | Ptr(addr: nat)
    | NilIface
    | Iface(elem: Value)
    | NilList
    | List(addr: nat)
    | Array(elems: seq<Value>)
    | NilMap
    | Map(addr: nat)
    | Struct(fields: seq<(string, Value)>)

  datatype Object =
    | Box(value: Value)
    | Elements(elems: seq<Value>)
    | Entries(entries: seq<(Value, Value)>)

  type Heap = map<nat, Object>

  /** The address holds a value, as a pointer expects. */
  predicate Boxed(heap: Heap, a: nat) {
    a in heap && heap[a].Box?
  }

  function Unpack(v: Value): Value {
    if v.Iface? then v.elem else v
  }

  // ---- what a value is made of ----

  /** Lists longer than this show only their ends. */
  const LONG: nat := 16
  const END: nat := 4

  predicate Composite(v: Value) {
    v.List? || v.Array? || v.Map? || v.Struct?
  }

  /** The elements of a slice or an array. */
  function Elems(heap: Heap, v: Value): seq<Value> {
    match v
    case List(a) => if a in heap && heap[a].Elements? then heap[a].elems else []
    case Array(es) => es
    case _ => []
  }

  predicate Long(heap: Heap, v: Value) {
    |Elems(heap, v)| > LONG
  }

  function EntriesOf(heap: Heap, v: Value): seq<(Value, Value)> {
    if v.Map? && v.addr in heap && heap[v.addr].Entries? then heap[v.addr].entries else []
  }

  /** The keys and values of the entries from `lo` on. */
  function EntryParts(es: seq<(Value, Value)>, lo: nat): seq<Value>
    requires lo <= |es|
    decreases |es| - lo
  {
    if lo == |es| then [] else [es[lo].0, es[lo].1] + EntryParts(es, lo + 1)
  }

  /** The values of the fields from `lo` on. */
  function FieldParts(fs: seq<(string, Value)>, lo: nat): seq<Value>
    requires lo <= |fs|
    decreases |fs| - lo
  {
    if lo == |fs| then [] else [fs[lo].1] + FieldParts(fs, lo + 1)
  }

  /** The parts of a value that are shown: elements, but only the ends of a long list; keys and values of a
      map; fields of a struct; what a pointer points to. */
  function Parts(heap: Heap, v: Value): seq<Value> {
    match v
    case Ptr(a) => if a in heap && heap[a].Box? then [heap[a].value] else []
    case Map(_) => EntryParts(EntriesOf(heap, v), 0)
    case Struct(fs) => FieldParts(fs, 0)
    case _ =>
      var es := Elems(heap, v);
      if |es| > LONG then es[..END] + es[|es| - END..] else es
  }

  lemma {:induction false} FieldPartsAre(fs: seq<(string, Value)>, lo: nat, u: Value)
    requires lo <= |fs| && u in FieldParts(fs, lo)
    ensures exists i :: lo <= i < |fs| && u == fs[i].1
    decreases |fs| - lo
  {
    if lo < |fs| && u != fs[lo].1 {
      FieldPartsAre(fs, lo + 1, u);
    }
  }

  /** `k` is shown as a part of `v`, seen through an interface. */
  ghost predicate Kid(heap: Heap, v: Value, k: Value) {
    exists u :: u in Parts(heap, v) && k == Unpack(u)
  }

  // ---- chains of pointers ----

  /** The address reached from `a` by following `n` pointers, if the chain is that long. */
  ghost function Hops(heap: Heap, a: nat, n: nat): Option<nat>
    decreases n
  {
    if a !in heap || !heap[a].Box? then None
    else if n == 0 then Some(a)
    else
      var next := Unpack(heap[a].value);
      if next.Ptr? then Hops(heap, next.addr, n - 1) else None
  }

  /** Following pointers alone leads from `a` back to `a`. */
  ghost predicate PointerLoop(heap: Heap, a: nat) {
    exists n: nat :: n > 0 && Hops(heap, a, n) == Some(a)
  }

  lemma {:induction false} HopsAdd(heap: Heap, a: nat, m: nat, n: nat)
    requires Hops(heap, a, m).Some?
    ensures Hops(heap, a, m + n) == Hops(heap, Hops(heap, a, m).value, n)
    decreases m
  {
    if m > 0 {
      HopsAdd(heap, Unpack(heap[a].value).addr, m - 1, n);
    }
  }

  lemma {:induction false} HopInHeap(heap: Heap, a: nat, n: nat)
    requires Hops(heap, a, n).Some?
    ensures Hops(heap, a, n).value in heap && heap[Hops(heap, a, n).value].Box?
    decreases n
  {
    if n > 0 {
      HopInHeap(heap, Unpack(heap[a].value).addr, n - 1);
    }
  }

  lemma {:induction false} PrefixOfChain(heap: Heap, a: nat, k: nat, n: nat)
    requires k <= n && Hops(heap, a, n).Some?
    ensures Hops(heap, a, k).Some?
    decreases n
  {
    if k > 0 {
      PrefixOfChain(heap, Unpack(heap[a].value).addr, k - 1, n - 1);
    }
  }

  lemma {:induction false} LoopNeverEnds(heap: Heap, a: nat, n: nat, k: nat)
    requires n > 0 && Hops(heap, a, n) == Some(a)
    ensures Hops(heap, a, k).Some?
  {
    if k < n {
      PrefixOfChain(heap, a, k, n);
    } else {
      HopsAdd(heap, a, n, k - n);
      LoopNeverEnds(heap, a, n, k - n);
    }
  }

  /** The addresses on the first `n` stops of a chain. */
  ghost function Stops(heap: Heap, a: nat, n: nat): set<nat> {
    set i: nat | i < n && Hops(heap, a, i).Some? :: Hops(heap, a, i).value
  }

  /** No address on the chain from `a` lies on a loop of pointers. */
  ghost predicate NoLoopAhead(heap: Heap, a: nat) {
    forall i: nat :: Hops(heap, a, i).Some? ==> !PointerLoop(heap, Hops(heap, a, i).value)
  }

  lemma {:induction false} StopsAreNew(heap: Heap, a: nat, n: nat)
    requires NoLoopAhead(heap, a) && forall i: nat :: i < n ==> Hops(heap, a, i).Some?
    ensures Stops(heap, a, n) <= heap.Keys && |Stops(heap, a, n)| == n
  {
    if n > 0 {
      StopsAreNew(heap, a, n - 1);
      assert Hops(heap, a, n - 1).Some?;
      var last := Hops(heap, a, n - 1).value;
      HopInHeap(heap, a, n - 1);
      if i: nat :| i < n - 1 && Hops(heap, a, i) == Some(last) {
        HopsAdd(heap, a, i, n - 1 - i);
        assert false;
      }
      assert Stops(heap, a, n) == Stops(heap, a, n - 1) + {last};
    } else {
      assert Stops(heap, a, n) == {};
    }
  }

  /** In a finite heap a chain without a loop ahead ends. */
  lemma ChainEnds(heap: Heap, a: nat)
    requires NoLoopAhead(heap, a)
    ensures exists n: nat :: n <= |heap| && Hops(heap, a, n).None?
  {
    if forall n: nat :: n <= |heap| ==> Hops(heap, a, n).Some? {
      StopsAreNew(heap, a, |heap| + 1);
      SubsetSize(Stops(heap, a, |heap| + 1), heap.Keys);
      assert false;
    }
  }

  // ---- paths through contents ----

  /** `w` is found inside `u`, `n` levels down, without going through a pointer. */
  ghost predicate Inside(heap: Heap, n: nat, u: Value, w: Value) {
    if n == 0 then u == w
    else !u.Ptr? && exists k :: Kid(heap, u, k) && Inside(heap, n - 1, k, w)
  }

  /** A value that contains itself, without a pointer in between. */
  ghost predicate ContentLoop(heap: Heap, w: Value) {
    exists n: nat :: n > 0 && Inside(heap, n, w, w)
  }

  lemma {:induction false} InsideDeeper(heap: Heap, n: nat, u: Value, w: Value, k: Value)
    requires Inside(heap, n, u, w) && !w.Ptr? && Kid(heap, w, k)
    ensures Inside(heap, n + 1, u, k)
  {
    hide Kid;
    if n == 0 {
      assert Inside(heap, 0, k, k);
    } else {
      var x :| Kid(heap, u, x) && Inside(heap, n - 1, x, w);
      InsideDeeper(heap, n - 1, x, w, k);
    }
  }

  // ---- what is reached from a root ----

  /** Whether contents at this nesting level are shown; zero means no limit. */
  predicate Within(maxDepth: int, level: int) {
    maxDepth == 0 || level <= maxDepth
  }

  /** Following a pointer stays on the same nesting level. */
  function Below(v: Value, level: nat): nat {
    if v.Ptr? then level else level + 1
  }

  /** `w` is reached from the root in `n` steps, at nesting level `level`. */
  ghost predicate ReachedIn(heap: Heap, maxDepth: int, root: Value, n: nat, w: Value, level: nat) {
    if n == 0 then w == root && level == 0
    else exists u, l: nat :: ReachedIn(heap, maxDepth, root, n - 1, u, l) && ToKid(heap, maxDepth, u, l, w, level)
  }

  ghost predicate ToKid(heap: Heap, maxDepth: int, u: Value, l: nat, w: Value, level: nat) {
    Kid(heap, u, w) && level == Below(u, l) && (u.Ptr? || Within(maxDepth, level))
  }

  ghost predicate Reached(heap: Heap, maxDepth: int, root: Value, w: Value, level: nat) {
    exists n: nat :: ReachedIn(heap, maxDepth, root, n, w, level)
  }

  lemma RootReached(heap: Heap, maxDepth: int, root: Value)
    ensures Reached(heap, maxDepth, root, root, 0)
  {
    assert ReachedIn(heap, maxDepth, root, 0, root, 0);
  }

  lemma KidReached(heap: Heap, maxDepth: int, root: Value, u: Value, l: nat, w: Value, level: nat)
    requires Reached(heap, maxDepth, root, u, l) && ToKid(heap, maxDepth, u, l, w, level)
    ensures Reached(heap, maxDepth, root, w, level)
  {
    var n: nat :| ReachedIn(heap, maxDepth, root, n, u, l);
    assert ReachedIn(heap, maxDepth, root, n + 1, w, level);
  }

  lemma PointerKid(heap: Heap, a: nat)
    requires a in heap && heap[a].Box?
    ensures Kid(heap, Ptr(a), Unpack(heap[a].value))
    ensures forall k :: Kid(heap, Ptr(a), k) ==> k == Unpack(heap[a].value)
  {
    assert Parts(heap, Ptr(a)) == [heap[a].value];
  }

  lemma {:induction false} HopsReached(heap: Heap, maxDepth: int, root: Value, a: nat, l: nat, n: nat)
    requires Reached(heap, maxDepth, root, Ptr(a), l) && Hops(heap, a, n).Some?
    ensures Reached(heap, maxDepth, root, Ptr(Hops(heap, a, n).value), l)
    decreases n
  {
    if n > 0 {
      var next := Unpack(heap[a].value);
      PointerKid(heap, a);
      hide Kid, Reached;
      KidReached(heap, maxDepth, root, Ptr(a), l, next, l);
      HopsReached(heap, maxDepth, root, next.addr, l, n - 1);
    }
  }

  /** No loop of pointers alone is reached and, unless a depth limit is set, nothing that contains itself
      without a pointer in between. */
  ghost predicate Printable(heap: Heap, maxDepth: int, root: Value) {
    forall w, l: nat :: Reached(heap, maxDepth, root, w, l) ==>
      && !(w.Ptr? && PointerLoop(heap, w.addr))
      && (maxDepth == 0 ==> !ContentLoop(heap, w))
  }

  /** A list too long to be shown in full is reached where its contents are shown; it has `n` elements. */
  ghost predicate ReachesLong(heap: Heap, maxDepth: int, root: Value, n: nat) {
    exists w, l: nat ::
      Reached(heap, maxDepth, root, w, l) && Long(heap, w) && |Elems(heap, w)| == n && Within(maxDepth, l + 1)
  }
}
