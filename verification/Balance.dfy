/** The brackets of the output: all are closed, except one for each list cut short. */
module Balance {
  import opened Heaps
  import opened Printer

  /** How many brackets of a kind are opened and not closed. */
  function Unclosed(out: seq<Chunk>, b: Bracket): int {
    if out == [] then 0
    else
      var last := out[|out| - 1];
      Unclosed(out[..|out| - 1], b) + if last == Open(b) then 1 else if last == Close(b) then -1 else 0
  }

  /** How many lists are cut short. */
  function Cuts(out: seq<Chunk>): nat {
    if out == [] then 0 else Cuts(out[..|out| - 1]) + if out[|out| - 1].Middle? then 1 else 0
  }

  /** Brackets of the three kinds that are open, and the depth, neither counting lists cut short. */
  datatype Ledger = Ledger(lists: int, maps: int, structs: int, depth: int)

  const NIL := Ledger(0, 0, 0, 0)

  function Plus(a: Ledger, b: Ledger): Ledger {
    Ledger(a.lists + b.lists, a.maps + b.maps, a.structs + b.structs, a.depth + b.depth)
  }

  function One(b: Bracket, n: int, depth: int): Ledger {
    match b
    case Lists => Ledger(n, 0, 0, depth)
    case Maps => Ledger(0, n, 0, depth)
    case Structs => Ledger(0, 0, n, depth)
  }

  function Worth(c: Chunk): Ledger {
    match c
    case Open(b) => One(b, 1, 0)
    case Close(b) => One(b, -1, 0)
    case Middle(_) => One(Lists, -1, -1)
    case _ => NIL
  }

  function Total(out: seq<Chunk>): Ledger {
    if out == [] then NIL else Plus(Total(out[..|out| - 1]), Worth(out[|out| - 1]))
  }

  function Books(s: State): Ledger {
    Plus(Total(s.out), Ledger(0, 0, 0, s.depth))
  }

  /** What a task still has to settle: a bracket to be closed, or a list to be cut short. */
  function Debt(t: Task): Ledger {
    match t
    case Leave(b) => One(b, 1, 1)
    case Count(_) => One(Lists, 1, 1)
    case _ => NIL
  }

  function Debts(tasks: seq<Task>): Ledger {
    if tasks == [] then NIL else Plus(Debt(tasks[0]), Debts(tasks[1..]))
  }

  /** Whatever is open is owed by the tasks on the stack. */
  ghost predicate Booked(c: Config) {
    Books(c.s) == Debts(c.tasks)
  }

  lemma {:induction false} TotalIs(out: seq<Chunk>)
    ensures var cuts: int := Cuts(out);
            Total(out) == Ledger(Unclosed(out, Lists) - cuts, Unclosed(out, Maps), Unclosed(out, Structs), -cuts)
    decreases |out|
  {
    if out != [] {
      TotalIs(out[..|out| - 1]);
    }
  }

  lemma BooksPut(s: State, c: Chunk)
    ensures Books(Put(s, c)) == Plus(Books(s), Worth(c))
  {
    assert (s.out + [c])[..|s.out|] == s.out;
  }

  lemma PlusNil(a: Ledger)
    ensures Plus(a, NIL) == a == Plus(NIL, a)
  {
  }

  lemma PlusAssoc(a: Ledger, b: Ledger, c: Ledger)
    ensures Plus(Plus(a, b), c) == Plus(a, Plus(b, c))
  {
  }

  /** Everything but brackets and cuts. */
  predicate Quiet(c: Chunk) {
    !c.Open? && !c.Close? && !c.Middle?
  }

  lemma BooksQuiet(s: State, c: Chunk)
    requires Quiet(c)
    ensures Books(Put(s, c)) == Books(s)
  {
    hide Books, Plus;
    BooksPut(s, c);
    PlusNil(Books(s));
  }

  lemma BooksPutType(j: Job, s: State, stars: nat, name: string)
    ensures Books(PutType(j, s, stars, name)) == Books(s)
  {
    hide Books;
    BooksQuiet(s, Text("(" + Stars(stars) + name + ")"));
  }

  lemma BooksIgnore(s: State, ignoreType: bool, pointers: map<nat, int>)
    ensures Books(s.(ignoreType := ignoreType, pointers := pointers)) == Books(s)
  {
  }

  lemma BooksDepth(s: State, d: int)
    ensures Books(s.(depth := d)) == Plus(Books(s), Ledger(0, 0, 0, d - s.depth))
  {
    hide Total;
  }

  lemma BooksEnter(s: State, b: Bracket)
    ensures Books(Put(s, Open(b)).(depth := s.depth + 1)) == Plus(Books(s), One(b, 1, 1))
  {
    hide Books;
    BooksPut(s, Open(b));
    BooksDepth(Put(s, Open(b)), s.depth + 1);
  }

  lemma BooksLeave(s: State, b: Bracket)
    ensures Plus(Books(Put(s, Close(b)).(depth := s.depth - 1)), One(b, 1, 1)) == Books(s)
  {
    hide Books;
    BooksPut(s, Close(b));
    BooksDepth(Put(s, Close(b)), s.depth - 1);
  }

  lemma BooksCut(s: State, n: nat)
    ensures Plus(Books(Put(s, Middle(n))), One(Lists, 1, 1)) == Books(s)
  {
    hide Books;
    BooksPut(s, Middle(n));
  }

  lemma {:induction false} DebtsConcat(a: seq<Task>, b: seq<Task>)
    ensures Debts(a + b) == Plus(Debts(a), Debts(b))
    decreases |a|
  {
    hide Plus, Debt;
    if a == [] {
      assert a + b == b;
      PlusNil(Debts(b));
    } else {
      assert (a + b)[1..] == a[1..] + b;
      DebtsConcat(a[1..], b);
      PlusAssoc(Debt(a[0]), Debts(a[1..]), Debts(b));
    }
  }

  lemma DebtsOne(t: Task)
    ensures Debts([t]) == Debt(t)
  {
    hide Plus;
    PlusNil(Debt(t));
  }

  lemma {:induction false} NoDebts(ts: seq<Task>)
    requires forall t :: t in ts ==> !t.Leave? && !t.Count?
    ensures Debts(ts) == NIL
    decreases |ts|
  {
    hide Plus;
    if ts != [] {
      assert ts[0] in ts;
      NoDebts(ts[1..]);
      PlusNil(NIL);
    }
  }

  lemma LongDebts(j: Job, v: Value, level: nat)
    requires Composite(v) && Long(j.heap, v)
    ensures Debts(PartTasks(j, v, level)) == One(Lists, 1, 1)
  {
    hide Debts, ListTasks, Plus, One;
    var es := Elems(j.heap, v);
    var n := |es|;
    var first, last := ListTasks(es, 0, END, level), ListTasks(es, n - END, n, level);
    ListTasksShow(es, 0, END, level);
    ListTasksShow(es, n - END, n, level);
    NoDebts(first);
    NoDebts(last);
    DebtsOne(Count(n));
    DebtsConcat(first, [Count(n)]);
    DebtsConcat(first + [Count(n)], last);
    PlusNil(One(Lists, 1, 1));
  }

  /** A composite value owes its closing bracket, or the cut that stands for it. */
  lemma ContentDebts(j: Job, v: Value, level: nat, depth: int)
    requires Composite(v)
    ensures Debts(ContentTasks(j, v, level, depth)) == One(BracketOf(v), 1, 1)
  {
    hide Debts, PartTasks, Parts, Plus, One;
    PlusNil(One(BracketOf(v), 1, 1));
    var leave := Leave(BracketOf(v));
    DebtsOne(leave);
    if !Within(j.maxDepth, depth) {
      DebtsOne(Say("<max>"));
      DebtsConcat([Say("<max>")], [leave]);
      assert [Say("<max>"), leave] == [Say("<max>")] + [leave];
    } else if Long(j.heap, v) {
      LongDebts(j, v, level);
      assert PartTasks(j, v, level) + [] == PartTasks(j, v, level);
    } else {
      PartTasksShow(j, v, level);
      NoDebts(PartTasks(j, v, level));
      DebtsConcat(PartTasks(j, v, level), [leave]);
    }
  }

  /** What a step must do to the books. */
  ghost predicate Settles(s: State, t: Task, s': State, ts: seq<Task>) {
    Plus(Books(s'), Debt(t)) == Plus(Books(s), Debts(ts))
  }

  lemma SettledIsBooked(s: State, t: Task, rest: seq<Task>, s': State, ts: seq<Task>)
    requires Booked(Config(s, [t] + rest)) && Settles(s, t, s', ts)
    ensures Booked(Config(s', ts + rest))
  {
    hide Books, Debts;
    DebtsOne(t);
    DebtsConcat([t], rest);
    DebtsConcat(ts, rest);
  }

  /** A step that writes text only, from a task without debts to tasks without debts. */
  lemma QuietSettles(s: State, t: Task, s': State, ts: seq<Task>)
    requires !t.Leave? && !t.Count? && (forall u :: u in ts ==> !u.Leave? && !u.Count?)
    requires Books(s') == Books(s)
    ensures Settles(s, t, s', ts)
  {
    hide Plus, Books, Debts;
    NoDebts(ts);
  }

  lemma ShowSettles(j: Job, s: State, v: Value, l: nat)
    requires !Composite(v)
    ensures Settles(s, Show(v, l), DoShow(j, s, v, l).0, DoShow(j, s, v, l).1)
  {
    hide Books, Settles;
    var s0 := Put(s, At(v, l));
    BooksQuiet(s, At(v, l));
    BooksQuiet(s0, Text("<nil>"));
    BooksIgnore(s0, s0.ignoreType, Pruned(s.pointers, s.depth));
    var s1 := PutType(j, s0, 0, j.typeName(v));
    BooksPutType(j, s0, 0, j.typeName(v));
    BooksIgnore(s1, false, s1.pointers);
    var text := if v.Leaf? then v.text else "<nil>";
    BooksQuiet(s1.(ignoreType := false), Text(text));
    QuietSettles(s, Show(v, l), DoShow(j, s, v, l).0, DoShow(j, s, v, l).1);
  }

  lemma CompositeSettles(j: Job, s: State, v: Value, l: nat)
    requires Composite(v)
    ensures Settles(s, Show(v, l), DoShow(j, s, v, l).0, DoShow(j, s, v, l).1)
  {
    hide Books, Debts, Plus, One, ContentTasks;
    var s0 := Put(s, At(v, l));
    BooksQuiet(s, At(v, l));
    var s1 := PutType(j, s0, 0, j.typeName(v));
    BooksPutType(j, s0, 0, j.typeName(v));
    BooksIgnore(s1, false, s1.pointers);
    BooksEnter(s1.(ignoreType := false), BracketOf(v));
    ContentDebts(j, v, l + 1, s.depth + 1);
    PlusNil(Books(DoShow(j, s, v, l).0));
  }

  lemma ChaseSettles(j: Job, s: State, v: Value, l: nat, chain: seq<nat>)
    ensures Settles(s, Chase(v, l, chain), DoChase(j, s, v, l, chain).0, DoChase(j, s, v, l, chain).1)
  {
    hide Books, Settles;
    var (s', ts) := DoChase(j, s, v, l, chain);
    if Follows(j, s, v) {
      var next := Unpack(j.heap[v.addr].value);
      var s1 := Put(Put(s, Into(v.addr)), At(next, l));
      BooksQuiet(s, Into(v.addr));
      BooksQuiet(Put(s, Into(v.addr)), At(next, l));
      assert s.out + [Into(v.addr), At(next, l)] == s.out + [Into(v.addr)] + [At(next, l)];
      BooksIgnore(s1, s1.ignoreType, s'.pointers);
    } else {
      var s1 := PutType(j, s, |chain|, j.typeName(v));
      BooksPutType(j, s, |chain|, j.typeName(v));
      BooksIgnore(s1, true, s1.pointers);
      BooksQuiet(s1, Text("<nil>"));
      BooksQuiet(s1, Text("<shown>"));
    }
    QuietSettles(s, Chase(v, l, chain), s', ts);
  }

  lemma CountSettles(j: Job, s: State, n: nat)
    ensures Settles(s, Count(n), Do(j, s, Count(n)).0, [])
  {
    hide Books, Debts, Plus, One;
    NoDebts([]);
    var s1 := PutType(j, s, 0, "string");
    BooksPutType(j, s, 0, "string");
    BooksCut(s1, n);
    BooksIgnore(Put(s1, Middle(n)), false, s1.pointers);
    PlusNil(Books(s));
  }

  lemma LeaveSettles(j: Job, s: State, b: Bracket)
    ensures Settles(s, Leave(b), Do(j, s, Leave(b)).0, [])
  {
    hide Books, Debts, Plus, One;
    NoDebts([]);
    BooksLeave(s, b);
    PlusNil(Books(s));
  }

  lemma TextSettles(j: Job, s: State, t: Task)
    requires t.Say? || t.Part? || t.Return?
    ensures Settles(s, t, Do(j, s, t).0, Do(j, s, t).1)
  {
    hide Books, Settles;
    if t.Part? {
      BooksIgnore(s, Do(j, s, t).0.ignoreType, s.pointers);
    } else if t.Say? {
      BooksQuiet(s, Text(t.text));
    } else {
      BooksQuiet(s, Back(|t.chain|));
    }
    QuietSettles(s, t, Do(j, s, t).0, Do(j, s, t).1);
  }

  lemma StepKeepsBooked(j: Job, c: Config)
    requires Booked(c) && c.tasks != []
    ensures Booked(Next(j, c))
  {
    hide Booked, Settles, DoShow, DoChase;
    var s, t, rest := c.s, c.tasks[0], c.tasks[1..];
    assert c.tasks == [t] + rest;
    match t {
      case Show(v, l) =>
        if Composite(v) {
          CompositeSettles(j, s, v, l);
        } else {
          ShowSettles(j, s, v, l);
        }
      case Chase(v, l, chain) => ChaseSettles(j, s, v, l, chain);
      case Count(n) => CountSettles(j, s, n);
      case Leave(b) => LeaveSettles(j, s, b);
      case _ => TextSettles(j, s, t);
    }
    SettledIsBooked(s, t, rest, Do(j, s, t).0, Do(j, s, t).1);
  }
}
