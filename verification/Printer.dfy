/** The printer as a machine: a state, and a stack of tasks still to be done. */
module Printer {
  import opened Heaps

  datatype Bracket = Lists | Maps | Structs

  /** What is written: brackets, the note that stands for the middle of a list of `total` elements, and other
      text. The last three kinds print nothing; they are an observer's notes: the printer turns to a value on
      some nesting level, it follows the pointer to an object, it is back from the last `count` objects. */
  datatype Chunk =
    | Open(of: Bracket)
    | Close(of: Bracket)
    | Middle(total: nat)
    | Text(text: string)
    | At(value: Value, level: nat)
    | Into(addr: nat)
    | Back(count: nat)

  /** What to print with: the heap, the machine address of each object, the names of types, the '#' and '+'
      flags, and the depth limit, where zero means none. */
  datatype Job = Job(heap: Heap, at: nat -> nat, typeName: Value -> string, sharp: bool, plus: bool, maxDepth: int)

  /** The fields that printing changes. `pointers` maps a machine address to the depth at which a pointer to it was
      followed. */
  datatype State = State(depth: int, pointers: map<nat, int>, ignoreType: bool, out: seq<Chunk>)

  /** Levels count the composite values around a value; the depth can be larger. `chain` lists the objects
      followed since a pointer was met, the latest first. */
  datatype Task =
    | Say(text: string)
    | Part(value: Value, level: nat, skipType: bool)
    | Show(value: Value, level: nat)
    | Chase(value: Value, level: nat, chain: seq<nat>)
    | Count(total: nat)
    | Leave(of: Bracket)
    | Return(chain: seq<nat>)
  {
    predicate Aims() {
      Part? || Show? || Chase?
    }

    /** The value that the task is about. */
    function Target(): Value
      requires Aims()
    {
      if Part? then Unpack(value) else value
    }
  }

  datatype Config = Config(s: State, tasks: seq<Task>)

  function Put(s: State, c: Chunk): State {
    s.(out := s.out + [c])
  }

  function Stars(n: nat): string {
    if n == 0 then "" else "*" + Stars(n - 1)
  }

  /** The type in front of a value, unless it is to be left out. */
  function PutType(j: Job, s: State, stars: nat, name: string): State {
    if j.sharp && !s.ignoreType then Put(s, Text("(" + Stars(stars) + name + ")")) else s
  }

  // ---- the parts of composite values ----

  function BracketOf(v: Value): Bracket
    requires Composite(v)
  {
    if v.Map? then Maps else if v.Struct? then Structs else Lists
  }

  function Space(i: nat): seq<Task> {
    if i > 0 then [Say(" ")] else []
  }

  function ListTasks(es: seq<Value>, lo: nat, hi: nat, level: nat): seq<Task>
    requires lo <= hi <= |es|
    decreases hi - lo
  {
    if lo == hi then [] else Space(lo) + [Part(es[lo], level, true)] + ListTasks(es, lo + 1, hi, level)
  }

  function MapTasks(es: seq<(Value, Value)>, lo: nat, level: nat): seq<Task>
    requires lo <= |es|
    decreases |es| - lo
  {
    if lo == |es| then []
    else
      Space(lo) + [Part(es[lo].0, level, true), Say(":"), Part(es[lo].1, level, true)] + MapTasks(es, lo + 1, level)
  }

  function NameTasks(j: Job, name: string): seq<Task> {
    if j.plus || j.sharp then [Say(name), Say(":")] else []
  }

  function StructTasks(j: Job, fs: seq<(string, Value)>, lo: nat, level: nat): seq<Task>
    requires lo <= |fs|
    decreases |fs| - lo
  {
    if lo == |fs| then []
    else Space(lo) + NameTasks(j, fs[lo].0) + [Part(fs[lo].1, level, false)] + StructTasks(j, fs, lo + 1, level)
  }

  /** The tasks for the parts of a composite value, on the given level. */
  function PartTasks(j: Job, v: Value, level: nat): seq<Task>
    requires Composite(v)
  {
    match v
    case Map(_) => MapTasks(EntriesOf(j.heap, v), 0, level)
    case Struct(fs) => StructTasks(j, fs, 0, level)
    case _ =>
      var es := Elems(j.heap, v);
      var n := |es|;
      if n > LONG then ListTasks(es, 0, END, level) + [Count(n)] + ListTasks(es, n - END, n, level)
      else ListTasks(es, 0, n, level)
  }

  /** What remains to be done once the opening bracket is written. A long list never closes its bracket. */
  function ContentTasks(j: Job, v: Value, level: nat, depth: int): seq<Task>
    requires Composite(v)
  {
    if !Within(j.maxDepth, depth) then [Say("<max>"), Leave(BracketOf(v))]
    else PartTasks(j, v, level) + if Long(j.heap, v) then [] else [Leave(BracketOf(v))]
  }

  // ---- one task ----

  /** The table without the entries of depth `d` or more. */
  function Pruned(pointers: map<nat, int>, d: int): map<nat, int> {
    map a | a in pointers && pointers[a] < d :: pointers[a]
  }

  function DoShow(j: Job, s: State, v: Value, level: nat): (State, seq<Task>) {
    var s0 := Put(s, At(v, level));
    if v.NilPtr? && (!j.sharp || s.ignoreType) then (Put(s0, Text("<nil>")), [])
    else if v.Ptr? || v.NilPtr? then (s0.(pointers := Pruned(s.pointers, s.depth)), [Chase(v, level, [])])
    else
      var s1 := PutType(j, s0, 0, j.typeName(v)).(ignoreType := false);
      if Composite(v) then
        (Put(s1, Open(BracketOf(v))).(depth := s.depth + 1), ContentTasks(j, v, level + 1, s.depth + 1))
      else if v.Leaf? then (Put(s1, Text(v.text)), [])
      else if v.Iface? then (s1, [])
      else (Put(s1, Text("<nil>")), [])
  }

  /** A pointer to the address of `a` was already followed at a smaller depth. */
  predicate Recorded(j: Job, s: State, a: nat) {
    j.at(a) in s.pointers && s.pointers[j.at(a)] < s.depth
  }

  predicate Follows(j: Job, s: State, v: Value) {
    v.Ptr? && v.addr in j.heap && j.heap[v.addr].Box? && !Recorded(j, s, v.addr)
  }

  /** One round of the loop that follows pointers, or what comes after the loop. */
  function DoChase(j: Job, s: State, v: Value, level: nat, chain: seq<nat>): (State, seq<Task>) {
    if Follows(j, s, v) then
      var next := Unpack(j.heap[v.addr].value);
      (s.(pointers := s.pointers[j.at(v.addr) := s.depth], out := s.out + [Into(v.addr), At(next, level)]),
       [Chase(next, level, [v.addr] + chain)])
    else
      var s1 := PutType(j, s, |chain|, j.typeName(v));
      if v.NilPtr? || v.NilIface? then (Put(s1, Text("<nil>")), [Return(chain)])
      else if v.Ptr? then (Put(s1, Text("<shown>")), [Return(chain)])
      else (s1.(ignoreType := true), [Show(v, level), Return(chain)])
  }

  /** What a task does, and the tasks that take its place. */
  function Do(j: Job, s: State, t: Task): (State, seq<Task>) {
    match t
    case Say(text) => (Put(s, Text(text)), [])
    case Part(u, level, skipType) =>
      (s.(ignoreType := !u.Iface? && !u.NilIface? && (skipType || s.ignoreType)), [Show(Unpack(u), level)])
    case Show(v, level) => DoShow(j, s, v, level)
    case Chase(v, level, chain) => DoChase(j, s, v, level, chain)
    case Count(n) => (Put(PutType(j, s, 0, "string"), Middle(n)).(ignoreType := false), [])
    case Leave(b) => (Put(s, Close(b)).(depth := s.depth - 1), [])
    case Return(chain) => (Put(s, Back(|chain|)), [])
  }

  // ---- runs ----

  function Next(j: Job, c: Config): Config
    requires c.tasks != []
  {
    var (s, ts) := Do(j, c.s, c.tasks[0]);
    Config(s, ts + c.tasks[1..])
  }

  /** Up to `n` steps; a machine without tasks stands still. */
  function Run(j: Job, n: nat, c: Config): Config
    decreases n
  {
    if n == 0 || c.tasks == [] then c else Run(j, n - 1, Next(j, c))
  }

  const START: State := State(0, map[], false, [])

  function Begin(root: Value): Config {
    Config(START, [Show(root, 0)])
  }

  /** The printer comes to an end. */
  ghost predicate Halts(j: Job, root: Value) {
    exists n: nat :: Run(j, n, Begin(root)).tasks == []
  }

  lemma {:induction false} RunAdd(j: Job, m: nat, n: nat, c: Config)
    ensures Run(j, m + n, c) == Run(j, n, Run(j, m, c))
    decreases m
  {
    hide Next;
    if m > 0 && c.tasks != [] {
      RunAdd(j, m - 1, n, Next(j, c));
    }
  }

  lemma NextFrame(j: Job, s: State, a: seq<Task>, b: seq<Task>)
    requires a != []
    ensures Next(j, Config(s, a + b)) == Config(Next(j, Config(s, a)).s, Next(j, Config(s, a)).tasks + b)
  {
    hide Do;
    assert (a + b)[1..] == a[1..] + b;
  }

  /** Tasks further down the stack do not matter to those above them. */
  lemma {:induction false} RunFrame(j: Job, n: nat, s: State, a: seq<Task>, b: seq<Task>)
    requires Run(j, n, Config(s, a + b)).tasks == []
    ensures Run(j, n, Config(s, a)).tasks == []
    ensures Run(j, n, Config(Run(j, n, Config(s, a)).s, b)) == Run(j, n, Config(s, a + b))
    decreases n
  {
    hide Next;
    if a == [] {
      assert a + b == b;
    } else if n > 0 {
      NextFrame(j, s, a, b);
      var c1 := Next(j, Config(s, a));
      assert c1 == Config(c1.s, c1.tasks);
      RunFrame(j, n - 1, c1.s, c1.tasks, b);
      RunLonger(j, n - 1, n, Config(Run(j, n - 1, c1).s, b));
    }
  }

  /** Once halted, more steps change nothing. */
  lemma {:induction false} RunLonger(j: Job, m: nat, n: nat, c: Config)
    requires m <= n && Run(j, m, c).tasks == []
    ensures Run(j, n, c) == Run(j, m, c)
    decreases m
  {
    hide Next;
    if m > 0 && c.tasks != [] {
      RunLonger(j, m - 1, n - 1, Next(j, c));
    }
  }

  // ---- the tasks for parts ----

  ghost predicate PartIn(ts: seq<Task>, u: Value, level: nat) {
    exists t :: t in ts && t.Part? && t.value == u && t.level == level
  }

  /** The tasks show exactly the values in `us`, on the given level, and announce exactly `counts`. */
  ghost predicate Shows(ts: seq<Task>, us: seq<Value>, level: nat, counts: set<nat>) {
    && (forall t :: t in ts ==>
          t.Say? || (t.Count? && t.total in counts) || (t.Part? && t.level == level && t.value in us))
    && (forall u :: u in us ==> PartIn(ts, u, level))
    && (forall n :: n in counts ==> Count(n) in ts)
  }

  lemma ShowsConcat(a: seq<Task>, us: seq<Value>, b: seq<Task>, vs: seq<Value>, level: nat, ca: set<nat>, cb: set<nat>)
    requires Shows(a, us, level, ca) && Shows(b, vs, level, cb)
    ensures Shows(a + b, us + vs, level, ca + cb)
  {
    forall u | u in us + vs ensures PartIn(a + b, u, level) {
      var t :| (t in a || t in b) && t.Part? && t.value == u && t.level == level;
      assert t in a + b;
    }
  }

  lemma ShowsMore(a: seq<Task>, us: seq<Value>, b: seq<Task>, vs: seq<Value>, level: nat)
    requires Shows(a, us, level, {}) && Shows(b, vs, level, {})
    ensures Shows(a + b, us + vs, level, {})
  {
    hide Shows;
    var none: set<nat> := {};
    ShowsConcat(a, us, b, vs, level, none, none);
    assert none + none == none;
  }

  lemma ShowsOne(before: seq<Task>, u: Value, level: nat, skipType: bool)
    requires forall t :: t in before ==> t.Say?
    ensures Shows(before + [Part(u, level, skipType)], [u], level, {})
  {
    assert Part(u, level, skipType) in before + [Part(u, level, skipType)];
  }

  lemma ShowsNothing(n: nat, level: nat)
    ensures Shows([], [], level, {}) && Shows([Count(n)], [], level, {n})
  {
  }

  lemma ListTasksFirst(es: seq<Value>, lo: nat, hi: nat, level: nat)
    requires lo <= hi <= |es|
    ensures lo == hi ==> ListTasks(es, lo, hi, level) == []
    ensures lo < hi ==>
              ListTasks(es, lo, hi, level)
              == (Space(lo) + [Part(es[lo], level, true)]) + ListTasks(es, lo + 1, hi, level)
  {
  }

  lemma {:induction false} ListTasksShow(es: seq<Value>, lo: nat, hi: nat, level: nat)
    requires lo <= hi <= |es|
    ensures Shows(ListTasks(es, lo, hi, level), es[lo..hi], level, {})
    decreases hi - lo
  {
    hide Shows, ListTasks;
    ListTasksFirst(es, lo, hi, level);
    if lo == hi {
      assert es[lo..hi] == [];
      ShowsNothing(0, level);
    } else {
      ListTasksShow(es, lo + 1, hi, level);
      ShowsOne(Space(lo), es[lo], level, true);
      ShowsMore(Space(lo) + [Part(es[lo], level, true)], [es[lo]], ListTasks(es, lo + 1, hi, level),
                es[lo + 1..hi], level);
      assert es[lo..hi] == [es[lo]] + es[lo + 1..hi];
    }
  }

  /** The tasks for one entry of a map. */
  lemma EntryTasksShow(lo: nat, k: Value, v: Value, level: nat)
    ensures Shows(Space(lo) + [Part(k, level, true), Say(":"), Part(v, level, true)], [k, v], level, {})
  {
    var key, val := Space(lo) + [Part(k, level, true)], [Say(":")] + [Part(v, level, true)];
    ShowsOne(Space(lo), k, level, true);
    ShowsOne([Say(":")], v, level, true);
    hide Shows;
    ShowsMore(key, [k], val, [v], level);
    assert key + val == Space(lo) + [Part(k, level, true), Say(":"), Part(v, level, true)];
    assert [k] + [v] == [k, v];
  }

  lemma {:induction false} MapTasksShow(es: seq<(Value, Value)>, lo: nat, level: nat)
    requires lo <= |es|
    ensures Shows(MapTasks(es, lo, level), EntryParts(es, lo), level, {})
    decreases |es| - lo
  {
    if lo < |es| {
      hide Shows, Space;
      var (k, v) := es[lo];
      var entry := Space(lo) + [Part(k, level, true), Say(":"), Part(v, level, true)];
      EntryTasksShow(lo, k, v, level);
      MapTasksShow(es, lo + 1, level);
      ShowsMore(entry, [k, v], MapTasks(es, lo + 1, level), EntryParts(es, lo + 1), level);
    }
  }

  lemma {:induction false} StructTasksShow(j: Job, fs: seq<(string, Value)>, lo: nat, level: nat)
    requires lo <= |fs|
    ensures Shows(StructTasks(j, fs, lo, level), FieldParts(fs, lo), level, {})
    decreases |fs| - lo
  {
    if lo < |fs| {
      var before := Space(lo) + NameTasks(j, fs[lo].0);
      var field, rest := before + [Part(fs[lo].1, level, false)], StructTasks(j, fs, lo + 1, level);
      assert StructTasks(j, fs, lo, level) == field + rest;
      ShowsOne(before, fs[lo].1, level, false);
      hide Shows, StructTasks;
      StructTasksShow(j, fs, lo + 1, level);
      ShowsMore(field, [fs[lo].1], rest, FieldParts(fs, lo + 1), level);
    }
  }

  /** What is announced about a value: the length of a long list. */
  ghost function Counts(heap: Heap, v: Value): set<nat> {
    if Long(heap, v) then {|Elems(heap, v)|} else {}
  }

  /** The tasks for a composite value show exactly its parts, and announce the length of a long list. */
  lemma PartTasksShow(j: Job, v: Value, level: nat)
    requires Composite(v)
    ensures Shows(PartTasks(j, v, level), Parts(j.heap, v), level, Counts(j.heap, v))
  {
    hide Shows;
    if v.Map? {
      MapTasksShow(EntriesOf(j.heap, v), 0, level);
    } else if v.Struct? {
      StructTasksShow(j, v.fields, 0, level);
    } else {
      ListPartTasksShow(j, v, level);
    }
  }

  lemma ListPartTasksShow(j: Job, v: Value, level: nat)
    requires v.List? || v.Array?
    ensures Shows(PartTasks(j, v, level), Parts(j.heap, v), level, Counts(j.heap, v))
  {
    hide Shows, ListTasks;
    var es := Elems(j.heap, v);
    var n := |es|;
    if n > LONG {
      var first, last := ListTasks(es, 0, END, level), ListTasks(es, n - END, n, level);
      ListTasksShow(es, 0, END, level);
      ListTasksShow(es, n - END, n, level);
      ShowsNothing(n, level);
      ShowsConcat(first, es[0..END], [Count(n)], [], level, {}, {n});
      ShowsConcat(first + [Count(n)], es[0..END] + [], last, es[n - END..n], level, {} + {n}, {});
      assert es[0..END] + [] + es[n - END..n] == Parts(j.heap, v);
      assert {} + {n} + {} == {n};
    } else {
      ListTasksShow(es, 0, n, level);
      assert es[0..n] == es;
    }
  }
}
