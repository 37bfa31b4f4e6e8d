/** What a reader sees: the text of a value, defined by recursion over what the value is made of. */
module Rendering {
  import opened Wrappers
  import opened Keys
  import opened Heaps
  import opened Printer
  import opened Printing

  // ---- the text of a print-out ----

  /** The text of a chunk; the observer's notes have none. */
  function Shown(c: Chunk): string {
    match c
    case Open(Lists) => "["
    case Open(Maps) => "map["
    case Open(Structs) => "{"
    case Close(Lists) => "]"
    case Close(Maps) => "]"
    case Close(Structs) => "}"
    case Middle(n) => " <-[" + Decimal(n) + "]->"
    case Text(text) => text
    case _ => ""
  }

  function Visible(out: seq<Chunk>): string {
    if out == [] then "" else Visible(out[..|out| - 1]) + Shown(out[|out| - 1])
  }

  // ---- values as trees ----

  /** A value with all that it is made of, and the name of its type. A pointer comes with the address it holds; `Held`
      is the content of an interface. */
  datatype Tree =
    | Plain(name: string, text: string)
    | NilPointer(name: string)
    | NilInterface(name: string)
    | NilOf(name: string)
    | Pointer(address: nat, target: Tree)
    | ListOf(name: string, elems: seq<Tree>)
    | MapOf(name: string, entries: seq<(Tree, Tree)>)
    | StructOf(name: string, fields: seq<(string, Tree)>)
    | Held(content: Tree)

  /** `t` is the value `v` with all that it is made of. */
  ghost predicate Views(j: Job, v: Value, t: Tree)
    decreases t
  {
    match t
    case Plain(name, text) => v == Leaf(text) && name == j.typeName(v)
    case NilPointer(name) => v.NilPtr? && name == j.typeName(v)
    case NilInterface(name) => v.NilIface? && name == j.typeName(v)
    case NilOf(name) => (v.NilList? || v.NilMap?) && name == j.typeName(v)
    case Pointer(address, target) =>
      v.Ptr? && Boxed(j.heap, v.addr) && address == j.at(v.addr) && Views(j, j.heap[v.addr].value, target)
    case ListOf(name, ts) =>
      && (v.List? || v.Array?) && name == j.typeName(v) && |Elems(j.heap, v)| == |ts|
      && forall i :: 0 <= i < |ts| ==> Views(j, Elems(j.heap, v)[i], ts[i])
    case MapOf(name, ts) =>
      && v.Map? && name == j.typeName(v) && |EntriesOf(j.heap, v)| == |ts|
      && forall i :: 0 <= i < |ts| ==>
           Views(j, EntriesOf(j.heap, v)[i].0, ts[i].0) && Views(j, EntriesOf(j.heap, v)[i].1, ts[i].1)
    case StructOf(name, ts) =>
      && v.Struct? && name == j.typeName(v) && |v.fields| == |ts|
      && forall i :: 0 <= i < |ts| ==> v.fields[i].0 == ts[i].0 && Views(j, v.fields[i].1, ts[i].1)
    case Held(content) =>
      v.Iface? && !content.Held? && !content.NilInterface? && Views(j, v.elem, content)
  }

  // ---- the text of a tree ----

  /** The text so far, the depth, and whether the next type is to be left out. */
  datatype Ink = Ink(text: string, depth: int, ignore: bool)

  /** The type in front of a value, with a star for each pointer that led to it. */
  function Typed(j: Job, ink: Ink, stars: nat, name: string): Ink {
    if j.sharp && !ink.ignore then ink.(text := ink.text + "(" + Stars(stars) + name + ")") else ink
  }

  function Add(ink: Ink, text: string): Ink {
    ink.(text := ink.text + text)
  }

  /** A value: its type, and its text; a pointer is its target with a star. */
  function Render(j: Job, t: Tree, ink: Ink): Ink
    decreases t, 2, 0
  {
    match t
    case Pointer(_, target) => RenderTarget(j, target, 1, ink)
    case NilPointer(name) => Add(Typed(j, ink, 0, name), "<nil>")
    case Held(content) => Render(j, content, ink)
    case Plain(name, text) => Add(Typed(j, ink, 0, name).(ignore := false), text)
    case NilOf(name) => Add(Typed(j, ink, 0, name).(ignore := false), "<nil>")
    case NilInterface(name) => Add(Typed(j, ink, 0, name).(ignore := false), "<nil>")
    case ListOf(name, _) => RenderContents(j, t, Enter(Typed(j, ink, 0, name), "["))
    case MapOf(name, _) => RenderContents(j, t, Enter(Typed(j, ink, 0, name), "map["))
    case StructOf(name, _) => RenderContents(j, t, Enter(Typed(j, ink, 0, name), "{"))
  }

  predicate Contains(t: Tree) {
    t.ListOf? || t.MapOf? || t.StructOf?
  }

  /** What stands between the brackets, and the closing bracket. A long list shows its ends, with a note between
      them; its bracket stays open, and the depth raised. */
  function RenderContents(j: Job, t: Tree, ink: Ink): Ink
    requires Contains(t)
    decreases t, 1, 0
  {
    if j.maxDepth != 0 && ink.depth > j.maxDepth then Leave(t, Add(ink, "<max>"))
    else if t.ListOf? && |t.elems| > 16 then RenderEnds(j, t.elems, ink)
    else Leave(t, RenderParts(j, t, ink))
  }

  function RenderParts(j: Job, t: Tree, ink: Ink): Ink
    requires Contains(t)
    decreases t, 0, 0
  {
    match t
    case ListOf(_, ts) => RenderElems(j, ts, 0, |ts|, ink)
    case MapOf(_, ts) => RenderEntries(j, ts, 0, ink)
    case StructOf(_, ts) => RenderFields(j, ts, 0, ink)
  }

  /** The first and the last elements of a long list. */
  function RenderEnds(j: Job, ts: seq<Tree>, ink: Ink): Ink
    requires |ts| > 16
    decreases ts, 1, 0
  {
    RenderElems(j, ts, |ts| - 4, |ts|, RenderMiddle(j, |ts|, RenderElems(j, ts, 0, 4, ink)))
  }

  /** The note between them, which is printed as a string. */
  function RenderMiddle(j: Job, n: nat, ink: Ink): Ink {
    Add(Typed(j, ink, 0, "string").(ignore := false), " <-[" + Decimal(n) + "]->")
  }

  function Enter(ink: Ink, bracket: string): Ink {
    Ink(ink.text + bracket, ink.depth + 1, false)
  }

  function Leave(t: Tree, ink: Ink): Ink {
    Ink(ink.text + if t.StructOf? then "}" else "]", ink.depth - 1, ink.ignore)
  }

  /** What `stars` pointers lead to. */
  function RenderTarget(j: Job, t: Tree, stars: nat, ink: Ink): Ink
    decreases t, 3, 0
  {
    match t
    case Held(content) => RenderTarget(j, content, stars, ink)
    case Pointer(_, target) => RenderTarget(j, target, stars + 1, ink)
    case NilPointer(name) => Add(Typed(j, ink, stars, name), "<nil>")
    case NilInterface(name) => Add(Typed(j, ink, stars, name), "<nil>")
    case _ => Render(j, t, Typed(j, ink, stars, t.name).(ignore := true))
  }

  /** A part of a composite value; what is in an interface shows its type. */
  function RenderPart(j: Job, t: Tree, skipType: bool, ink: Ink): Ink
    decreases t, 3, 0
  {
    Render(j, t, ink.(ignore := !t.Held? && !t.NilInterface? && (skipType || ink.ignore)))
  }

  /** Parts are separated by blanks. */
  function Blank(i: nat, ink: Ink): Ink {
    if i > 0 then Add(ink, " ") else ink
  }

  function RenderElems(j: Job, ts: seq<Tree>, lo: nat, hi: nat, ink: Ink): Ink
    requires lo <= hi <= |ts|
    decreases ts, 0, hi - lo
  {
    if lo == hi then ink else RenderElems(j, ts, lo + 1, hi, RenderPart(j, ts[lo], true, Blank(lo, ink)))
  }

  /** Key, colon, value. */
  function RenderEntries(j: Job, ts: seq<(Tree, Tree)>, lo: nat, ink: Ink): Ink
    requires lo <= |ts|
    decreases ts, 0, |ts| - lo
  {
    if lo == |ts| then ink else RenderEntries(j, ts, lo + 1, RenderEntry(j, ts[lo], Blank(lo, ink)))
  }

  function RenderEntry(j: Job, e: (Tree, Tree), ink: Ink): Ink
    decreases e, 4, 0
  {
    RenderPart(j, e.1, true, Add(RenderPart(j, e.0, true, ink), ":"))
  }

  /** The name and a colon, if names are wanted, and the value. */
  function RenderFields(j: Job, ts: seq<(string, Tree)>, lo: nat, ink: Ink): Ink
    requires lo <= |ts|
    decreases ts, 0, |ts| - lo
  {
    if lo == |ts| then ink else RenderFields(j, ts, lo + 1, RenderField(j, ts[lo], Blank(lo, ink)))
  }

  function RenderField(j: Job, f: (string, Tree), ink: Ink): Ink
    decreases f, 4, 0
  {
    RenderPart(j, f.1, false, if j.plus || j.sharp then Add(ink, f.0 + ":") else ink)
  }

  // ---- addresses ----

  /** The addresses that the pointers of a tree hold. */
  ghost function Addresses(t: Tree): set<nat>
    decreases t, 0
  {
    match t
    case Pointer(address, target) => {address} + Addresses(target)
    case Held(content) => Addresses(content)
    case ListOf(_, ts) => ElemAddresses(ts, 0, |ts|)
    case MapOf(_, ts) => EntryAddresses(ts, 0)
    case StructOf(_, ts) => FieldAddresses(ts, 0)
    case _ => {}
  }

  ghost function ElemAddresses(ts: seq<Tree>, lo: nat, hi: nat): set<nat>
    requires lo <= hi <= |ts|
    decreases ts, hi - lo
  {
    if lo == hi then {} else Addresses(ts[lo]) + ElemAddresses(ts, lo + 1, hi)
  }

  ghost function EntryAddresses(ts: seq<(Tree, Tree)>, lo: nat): set<nat>
    requires lo <= |ts|
    decreases ts, |ts| - lo
  {
    if lo == |ts| then {} else EntryAddress(ts[lo]) + EntryAddresses(ts, lo + 1)
  }

  ghost function EntryAddress(e: (Tree, Tree)): set<nat>
    decreases e
  {
    Addresses(e.0) + Addresses(e.1)
  }

  ghost function FieldAddresses(ts: seq<(string, Tree)>, lo: nat): set<nat>
    requires lo <= |ts|
    decreases ts, |ts| - lo
  {
    if lo == |ts| then {} else FieldAddress(ts[lo]) + FieldAddresses(ts, lo + 1)
  }

  ghost function FieldAddress(f: (string, Tree)): set<nat>
    decreases f
  {
    Addresses(f.1)
  }

  /** No address is held twice. */
  ghost predicate Unshared(t: Tree)
    decreases t
  {
    match t
    case Pointer(address, target) => address !in Addresses(target) && Unshared(target)
    case Held(content) => Unshared(content)
    case ListOf(_, ts) =>
      forall i :: 0 <= i < |ts| ==> Unshared(ts[i]) && Addresses(ts[i]) !! ElemAddresses(ts, i + 1, |ts|)
    case MapOf(_, ts) =>
      forall i :: 0 <= i < |ts| ==>
        && Unshared(ts[i].0) && Unshared(ts[i].1) && Addresses(ts[i].0) !! Addresses(ts[i].1)
        && EntryAddress(ts[i]) !! EntryAddresses(ts, i + 1)
    case StructOf(_, ts) =>
      forall i :: 0 <= i < |ts| ==> Unshared(ts[i].1) && Addresses(ts[i].1) !! FieldAddresses(ts, i + 1)
    case _ => true
  }

  // ---- what tasks lead to ----

  /** The tasks alone, done in `s`, lead to `t`. */
  ghost predicate Leads(j: Job, s: State, ts: seq<Task>, t: State) {
    exists n: nat :: Run(j, n, Config(s, ts)) == Config(t, [])
  }

  lemma LeadsNowhere(j: Job, s: State)
    ensures Leads(j, s, [], s)
  {
    assert Run(j, 0, Config(s, [])) == Config(s, []);
  }

  lemma LeadsFirst(j: Job, s: State, task: Task, t: State)
    requires Leads(j, Do(j, s, task).0, Do(j, s, task).1, t)
    ensures Leads(j, s, [task], t)
  {
    hide Do;
    var n: nat :| Run(j, n, Config(Do(j, s, task).0, Do(j, s, task).1)) == Config(t, []);
    assert [task][1..] == [] && Do(j, s, task).1 + [] == Do(j, s, task).1;
    assert Run(j, n + 1, Config(s, [task])) == Config(t, []);
  }

  lemma {:induction false} LeadsThenIn(j: Job, n: nat, s: State, a: seq<Task>, t: State, b: seq<Task>, u: State)
    requires Run(j, n, Config(s, a)) == Config(t, []) && Leads(j, t, b, u)
    ensures Leads(j, s, a + b, u)
    decreases n
  {
    hide Next;
    if a == [] {
      assert a + b == b;
    } else {
      var c := Next(j, Config(s, a));
      NextFrame(j, s, a, b);
      LeadsThenIn(j, n - 1, c.s, c.tasks, t, b, u);
      var m: nat :| Run(j, m, Config(c.s, c.tasks + b)) == Config(u, []);
      assert Run(j, m + 1, Config(s, a + b)) == Config(u, []);
    }
  }

  lemma LeadsThen(j: Job, s: State, a: seq<Task>, t: State, b: seq<Task>, u: State)
    requires Leads(j, s, a, t) && Leads(j, t, b, u)
    ensures Leads(j, s, a + b, u)
  {
    hide Run;
    var n: nat :| Run(j, n, Config(s, a)) == Config(t, []);
    LeadsThenIn(j, n, s, a, t, b, u);
  }

  /** A task that leaves none. */
  lemma LeadsOne(j: Job, s: State, task: Task)
    requires Do(j, s, task).1 == []
    ensures Leads(j, s, [task], Do(j, s, task).0)
  {
    hide Do, Leads;
    LeadsNowhere(j, Do(j, s, task).0);
    LeadsFirst(j, s, task, Do(j, s, task).0);
  }

  // ---- the text of a state ----

  function InkOf(s: State): Ink {
    Ink(Visible(s.out), s.depth, s.ignoreType)
  }

  lemma VisiblePut(out: seq<Chunk>, c: Chunk)
    ensures Visible(out + [c]) == Visible(out) + Shown(c)
  {
    assert (out + [c])[..|out|] == out;
  }

  /** `t` is `s` with `ink` written, and at most pointers to `addresses` added to the table. */
  ghost predicate Drawn(s: State, t: State, ink: Ink, addresses: set<nat>) {
    InkOf(t) == ink && t.pointers.Keys <= s.pointers.Keys + addresses
  }

  lemma PutDrawn(s: State, c: Chunk)
    ensures Drawn(s, Put(s, c), Add(InkOf(s), Shown(c)), {})
  {
    VisiblePut(s.out, c);
    hide Visible, Shown;
  }

  /** The observer's notes print nothing. */
  lemma NoteDrawn(s: State, c: Chunk)
    requires c.At? || c.Into? || c.Back?
    ensures InkOf(Put(s, c)) == InkOf(s)
  {
    VisiblePut(s.out, c);
    hide Visible;
  }

  lemma TypeDrawn(j: Job, s: State, stars: nat, name: string)
    ensures Drawn(s, PutType(j, s, stars, name), Typed(j, InkOf(s), stars, name), {})
    ensures PutType(j, s, stars, name).depth == s.depth
  {
    PutDrawn(s, Text("(" + Stars(stars) + name + ")"));
    hide Visible;
  }

  // ---- a value ----

  lemma {:induction false} Draw(j: Job, v: Value, t: Tree, level: nat, s: State) returns (r: State)
    requires Views(j, v, t) && !t.Held? && Unshared(t) && s.pointers.Keys !! Addresses(t)
    ensures Leads(j, s, [Show(v, level)], r) && Drawn(s, r, Render(j, t, InkOf(s)), Addresses(t))
    decreases t, if t.Pointer? || t.NilPointer? then 4 else 2, 0
  {
    if t.Pointer? || t.NilPointer? {
      r := DrawPointer(j, v, t, level, s);
    } else if Contains(t) {
      r := DrawComposite(j, v, t, level, s);
    } else {
      r := DrawPlain(j, v, t, level, s);
    }
  }

  lemma DrawPlain(j: Job, v: Value, t: Tree, level: nat, s: State) returns (r: State)
    requires Views(j, v, t) && (t.Plain? || t.NilOf? || t.NilInterface?)
    ensures Leads(j, s, [Show(v, level)], r) && Drawn(s, r, Render(j, t, InkOf(s)), {})
  {
    hide Leads, Visible;
    var s0 := Put(s, At(v, level));
    NoteDrawn(s, At(v, level));
    TypeDrawn(j, s0, 0, t.name);
    var s1 := PutType(j, s0, 0, t.name).(ignoreType := false);
    var text := if t.Plain? then t.text else "<nil>";
    r := Put(s1, Text(text));
    PutDrawn(s1, Text(text));
    LeadsOne(j, s, Show(v, level));
  }

  lemma DrawComposite(j: Job, v: Value, t: Tree, level: nat, s: State) returns (r: State)
    requires Views(j, v, t) && Contains(t) && Unshared(t) && s.pointers.Keys !! Addresses(t)
    ensures Leads(j, s, [Show(v, level)], r) && Drawn(s, r, Render(j, t, InkOf(s)), Addresses(t))
    decreases t, 1, 1
  {
    hide Leads, Visible, PutType, Typed, ContentTasks, RenderContents, Unshared, Addresses;
    var s0 := Put(s, At(v, level));
    NoteDrawn(s, At(v, level));
    TypeDrawn(j, s0, 0, t.name);
    var s1 := PutType(j, s0, 0, t.name).(ignoreType := false);
    PutDrawn(s1, Open(BracketOf(v)));
    r := DrawContents(j, v, t, level + 1, Put(s1, Open(BracketOf(v))).(depth := s.depth + 1));
    LeadsFirst(j, s, Show(v, level), r);
  }

  lemma DrawPointer(j: Job, v: Value, t: Tree, level: nat, s: State) returns (r: State)
    requires Views(j, v, t) && (t.Pointer? || t.NilPointer?) && Unshared(t) && s.pointers.Keys !! Addresses(t)
    ensures Leads(j, s, [Show(v, level)], r) && Drawn(s, r, Render(j, t, InkOf(s)), Addresses(t))
    decreases t, 3, 1
  {
    hide Leads, Visible;
    var s0 := Put(s, At(v, level));
    NoteDrawn(s, At(v, level));
    if v.NilPtr? && (!j.sharp || s.ignoreType) {
      r := Put(s0, Text("<nil>"));
      PutDrawn(s0, Text("<nil>"));
      LeadsOne(j, s, Show(v, level));
    } else {
      r := DrawTarget(j, v, t, level, [], s0.(pointers := Pruned(s.pointers, s.depth)));
      LeadsFirst(j, s, Show(v, level), r);
    }
  }

  /** The state after a pointer that is followed. */
  function Followed(j: Job, s: State, w: Value, level: nat): State
    requires w.Ptr? && Boxed(j.heap, w.addr)
  {
    var next := Unpack(j.heap[w.addr].value);
    s.(pointers := s.pointers[j.at(w.addr) := s.depth], out := s.out + [Into(w.addr), At(next, level)])
  }

  lemma FollowedInk(j: Job, s: State, w: Value, level: nat)
    requires w.Ptr? && Boxed(j.heap, w.addr)
    ensures InkOf(Followed(j, s, w, level)) == InkOf(s)
  {
    hide Visible;
    var next := Unpack(j.heap[w.addr].value);
    NoteDrawn(s, Into(w.addr));
    NoteDrawn(Put(s, Into(w.addr)), At(next, level));
    assert s.out + [Into(w.addr), At(next, level)] == s.out + [Into(w.addr)] + [At(next, level)];
  }

  /** What a chain of pointers leads to. */
  lemma {:induction false} DrawTarget(j: Job, w: Value, t: Tree, level: nat, chain: seq<nat>, s: State)
    returns (r: State)
    requires Views(j, w, t) && Unshared(t) && s.pointers.Keys !! Addresses(t)
    ensures Leads(j, s, [Chase(Unpack(w), level, chain)], r)
    ensures Drawn(s, r, RenderTarget(j, t, |chain|, InkOf(s)), Addresses(t))
    decreases t, 3, 0
  {
    hide Leads, InkOf;
    if t.Held? {
      r := DrawTarget(j, w.elem, t.content, level, chain, s);
    } else if t.Pointer? {
      r := DrawTarget(j, j.heap[w.addr].value, t.target, level, [w.addr] + chain, Followed(j, s, w, level));
      FollowedInk(j, s, w, level);
      LeadsFirst(j, s, Chase(w, level, chain), r);
    } else if t.NilPointer? || t.NilInterface? {
      r := DrawNil(j, w, t, level, chain, s);
    } else {
      r := DrawEnd(j, w, t, level, chain, s);
    }
  }

  lemma DrawNil(j: Job, w: Value, t: Tree, level: nat, chain: seq<nat>, s: State) returns (r: State)
    requires Views(j, w, t) && (t.NilPointer? || t.NilInterface?)
    ensures Leads(j, s, [Chase(w, level, chain)], r)
    ensures Drawn(s, r, Add(Typed(j, InkOf(s), |chain|, t.name), "<nil>"), {})
  {
    hide Leads, Visible;
    TypeDrawn(j, s, |chain|, t.name);
    var s1 := PutType(j, s, |chain|, t.name);
    var s2 := Put(s1, Text("<nil>"));
    PutDrawn(s1, Text("<nil>"));
    LeadsOne(j, s2, Return(chain));
    r := Put(s2, Back(|chain|));
    NoteDrawn(s2, Back(|chain|));
    LeadsFirst(j, s, Chase(w, level, chain), r);
  }

  /** A chain that ends in a value that is no pointer. */
  lemma DrawEnd(j: Job, w: Value, t: Tree, level: nat, chain: seq<nat>, s: State) returns (r: State)
    requires Views(j, w, t) && !t.Held? && !t.Pointer? && !t.NilPointer? && !t.NilInterface?
    requires Unshared(t) && s.pointers.Keys !! Addresses(t)
    ensures Leads(j, s, [Chase(w, level, chain)], r)
    ensures Drawn(s, r, RenderTarget(j, t, |chain|, InkOf(s)), Addresses(t))
    decreases t, 2, 1
  {
    hide Leads, Visible, Unshared, Addresses, Render, PutType, Typed;
    TypeDrawn(j, s, |chain|, t.name);
    var s1 := PutType(j, s, |chain|, t.name).(ignoreType := true);
    var s2 := Draw(j, w, t, level, s1);
    r := Put(s2, Back(|chain|));
    NoteDrawn(s2, Back(|chain|));
    LeadsOne(j, s2, Return(chain));
    LeadsThen(j, s1, [Show(w, level)], s2, [Return(chain)], r);
    assert [Show(w, level)] + [Return(chain)] == [Show(w, level), Return(chain)];
    LeadsFirst(j, s, Chase(w, level, chain), r);
  }

  /** A part, seen through an interface. */
  lemma {:induction false} DrawPart(j: Job, u: Value, t: Tree, level: nat, skipType: bool, s: State) returns (r: State)
    requires Views(j, u, t) && Unshared(t) && s.pointers.Keys !! Addresses(t)
    ensures Leads(j, s, [Part(u, level, skipType)], r)
    ensures Drawn(s, r, RenderPart(j, t, skipType, InkOf(s)), Addresses(t))
    decreases t, 5, 0
  {
    hide Leads, Visible;
    var s0 := s.(ignoreType := !u.Iface? && !u.NilIface? && (skipType || s.ignoreType));
    if t.Held? {
      r := Draw(j, u.elem, t.content, level, s0);
    } else {
      r := Draw(j, u, t, level, s0);
    }
    LeadsFirst(j, s, Part(u, level, skipType), r);
  }

  /** The blank in front of all parts but the first. */
  lemma DrawSpace(j: Job, i: nat, s: State) returns (r: State)
    ensures Leads(j, s, Space(i), r) && Drawn(s, r, Blank(i, InkOf(s)), {})
  {
    hide Leads, Visible;
    if i == 0 {
      r := s;
      LeadsNowhere(j, s);
    } else {
      r := Put(s, Text(" "));
      PutDrawn(s, Text(" "));
      LeadsOne(j, s, Say(" "));
    }
  }

  // ---- contents ----

  lemma {:induction false} DrawContents(j: Job, v: Value, t: Tree, level: nat, s: State) returns (r: State)
    requires Views(j, v, t) && Contains(t) && Unshared(t) && s.pointers.Keys !! Addresses(t)
    ensures Leads(j, s, ContentTasks(j, v, level, s.depth), r)
    ensures Drawn(s, r, RenderContents(j, t, InkOf(s)), Addresses(t))
    decreases t, 1, 0
  {
    hide Leads, InkOf, Views, Unshared, Addresses, ContentTasks, RenderContents;
    if !Within(j.maxDepth, s.depth) {
      r := DrawTooDeep(j, v, t, level, s);
    } else if Long(j.heap, v) {
      r := DrawLong(j, v, t, level, s);
    } else {
      r := DrawClosed(j, v, t, level, s);
    }
  }

  lemma DrawLong(j: Job, v: Value, t: Tree, level: nat, s: State) returns (r: State)
    requires Views(j, v, t) && Contains(t) && Unshared(t) && s.pointers.Keys !! Addresses(t)
    requires Within(j.maxDepth, s.depth) && Long(j.heap, v)
    ensures Leads(j, s, ContentTasks(j, v, level, s.depth), r)
    ensures Drawn(s, r, RenderContents(j, t, InkOf(s)), Addresses(t))
    decreases t, 0, 1
  {
    hide Leads, Drawn, ListTasks, RenderEnds, Addresses;
    r := DrawEnds(j, Elems(j.heap, v), t, level, s);
    assert PartTasks(j, v, level) + [] == PartTasks(j, v, level);
    hide Views, Unshared;
  }

  lemma DrawClosed(j: Job, v: Value, t: Tree, level: nat, s: State) returns (r: State)
    requires Views(j, v, t) && Contains(t) && Unshared(t) && s.pointers.Keys !! Addresses(t)
    requires Within(j.maxDepth, s.depth) && !Long(j.heap, v)
    ensures Leads(j, s, ContentTasks(j, v, level, s.depth), r)
    ensures Drawn(s, r, RenderContents(j, t, InkOf(s)), Addresses(t))
    decreases t, 0, 1
  {
    hide Leads, Visible, RenderParts, PartTasks, Addresses, Unshared;
    var s1 := DrawParts(j, v, t, level, s);
    r := DrawLeave(j, v, t, s1);
    LeadsThen(j, s, PartTasks(j, v, level), s1, [Task.Leave(BracketOf(v))], r);
  }

  lemma DrawTooDeep(j: Job, v: Value, t: Tree, level: nat, s: State) returns (r: State)
    requires Views(j, v, t) && Contains(t) && !Within(j.maxDepth, s.depth)
    ensures Leads(j, s, ContentTasks(j, v, level, s.depth), r)
    ensures Drawn(s, r, RenderContents(j, t, InkOf(s)), {})
  {
    hide Leads, Visible;
    var leave := Task.Leave(BracketOf(v));
    var s1 := Put(s, Text("<max>"));
    PutDrawn(s, Text("<max>"));
    LeadsOne(j, s, Say("<max>"));
    r := DrawLeave(j, v, t, s1);
    LeadsThen(j, s, [Say("<max>")], s1, [leave], r);
    assert [Say("<max>")] + [leave] == [Say("<max>"), leave];
  }

  lemma {:induction false} DrawParts(j: Job, v: Value, t: Tree, level: nat, s: State) returns (r: State)
    requires Views(j, v, t) && Contains(t) && !Long(j.heap, v) && Unshared(t) && s.pointers.Keys !! Addresses(t)
    ensures Leads(j, s, PartTasks(j, v, level), r) && Drawn(s, r, RenderParts(j, t, InkOf(s)), Addresses(t))
    decreases t, 0, 0
  {
    hide Leads, Drawn;
    if t.ListOf? {
      r := DrawElems(j, Elems(j.heap, v), t.elems, 0, |t.elems|, level, s);
    } else if t.MapOf? {
      r := DrawEntries(j, EntriesOf(j.heap, v), t.entries, 0, level, s);
    } else {
      r := DrawFields(j, v.fields, t.fields, 0, level, s);
    }
  }

  lemma DrawLeave(j: Job, v: Value, t: Tree, s: State) returns (r: State)
    requires Views(j, v, t) && Contains(t)
    ensures Leads(j, s, [Task.Leave(BracketOf(v))], r) && Drawn(s, r, Leave(t, InkOf(s)), {})
  {
    hide Leads, Visible;
    r := Put(s, Close(BracketOf(v))).(depth := s.depth - 1);
    PutDrawn(s, Close(BracketOf(v)));
    LeadsOne(j, s, Task.Leave(BracketOf(v)));
  }

  /** The trees of the elements of a list. */
  ghost predicate ElemTrees(j: Job, us: seq<Value>, ts: seq<Tree>) {
    && |us| == |ts|
    && forall i :: 0 <= i < |ts| ==>
         Views(j, us[i], ts[i]) && Unshared(ts[i]) && Addresses(ts[i]) !! ElemAddresses(ts, i + 1, |ts|)
  }

  lemma {:induction false} RangeAddresses(ts: seq<Tree>, lo: nat, mid: nat, hi: nat)
    requires lo <= mid <= hi <= |ts|
    ensures ElemAddresses(ts, lo, mid) + ElemAddresses(ts, mid, hi) == ElemAddresses(ts, lo, hi)
    decreases mid - lo
  {
    if lo < mid {
      RangeAddresses(ts, lo + 1, mid, hi);
    }
  }

  lemma {:induction false} DrawElems(j: Job, us: seq<Value>, ts: seq<Tree>, lo: nat, hi: nat, level: nat, s: State)
    returns (r: State)
    requires lo <= hi <= |ts| && ElemTrees(j, us, ts) && s.pointers.Keys !! ElemAddresses(ts, lo, hi)
    ensures Leads(j, s, ListTasks(us, lo, hi, level), r)
    ensures Drawn(s, r, RenderElems(j, ts, lo, hi, InkOf(s)), ElemAddresses(ts, lo, hi))
    decreases ts, 6, hi - lo
  {
    hide Leads, InkOf, Views, Unshared, Addresses, RenderPart;
    if lo == hi {
      r := s;
      LeadsNowhere(j, s);
    } else {
      var s0 := DrawSpace(j, lo, s);
      var s1 := DrawPart(j, us[lo], ts[lo], level, true, s0);
      RangeAddresses(ts, lo + 1, hi, |ts|);
      r := DrawElems(j, us, ts, lo + 1, hi, level, s1);
      var part, rest := [Part(us[lo], level, true)], ListTasks(us, lo + 1, hi, level);
      LeadsThen(j, s, Space(lo), s0, part, s1);
      LeadsThen(j, s, Space(lo) + part, s1, rest, r);
    }
  }

  lemma DrawEnds(j: Job, us: seq<Value>, t: Tree, level: nat, s: State) returns (r: State)
    requires t.ListOf? && ElemTrees(j, us, t.elems) && |us| > 16 && s.pointers.Keys !! Addresses(t)
    ensures Leads(j, s, ListTasks(us, 0, 4, level) + [Count(|us|)] + ListTasks(us, |us| - 4, |us|, level), r)
    ensures Drawn(s, r, RenderEnds(j, t.elems, InkOf(s)), Addresses(t))
    decreases t, 0, 0
  {
    hide Leads, InkOf, ListTasks, RenderElems, Views, Unshared, ElemAddresses;
    var ts, n := t.elems, |t.elems|;
    RangeAddresses(ts, 0, 4, n);
    RangeAddresses(ts, 4, n - 4, n);
    EndsApart(j, us, ts);
    var s1 := DrawElems(j, us, ts, 0, 4, level, s);
    var s2 := DrawMiddle(j, n, s1);
    r := DrawElems(j, us, ts, n - 4, n, level, s2);
    var first, last := ListTasks(us, 0, 4, level), ListTasks(us, n - 4, n, level);
    LeadsThen(j, s, first, s1, [Count(n)], s2);
    LeadsThen(j, s, first + [Count(n)], s2, last, r);
  }

  lemma DrawMiddle(j: Job, n: nat, s: State) returns (r: State)
    ensures Leads(j, s, [Count(n)], r) && Drawn(s, r, RenderMiddle(j, n, InkOf(s)), {})
  {
    hide Leads, Visible, Decimal;
    TypeDrawn(j, s, 0, "string");
    var s1 := PutType(j, s, 0, "string");
    r := Put(s1, Middle(n)).(ignoreType := false);
    PutDrawn(s1, Middle(n));
    LeadsOne(j, s, Count(n));
  }

  /** The first and the last elements of a long list hold different addresses. */
  lemma EndsApart(j: Job, us: seq<Value>, ts: seq<Tree>)
    requires ElemTrees(j, us, ts) && |ts| > 16
    ensures ElemAddresses(ts, 0, 4) !! ElemAddresses(ts, |ts| - 4, |ts|)
  {
    hide Views, Unshared, Addresses;
    forall i | 0 <= i < 4 ensures Addresses(ts[i]) !! ElemAddresses(ts, |ts| - 4, |ts|) {
      RangeAddresses(ts, i + 1, |ts| - 4, |ts|);
    }
    assert ElemAddresses(ts, 3, 4) == Addresses(ts[3]);
    assert ElemAddresses(ts, 2, 4) == Addresses(ts[2]) + ElemAddresses(ts, 3, 4);
    assert ElemAddresses(ts, 1, 4) == Addresses(ts[1]) + ElemAddresses(ts, 2, 4);
    assert ElemAddresses(ts, 0, 4) == Addresses(ts[0]) + ElemAddresses(ts, 1, 4);
  }

  ghost predicate EntryTrees(j: Job, us: seq<(Value, Value)>, ts: seq<(Tree, Tree)>) {
    && |us| == |ts|
    && forall i :: 0 <= i < |ts| ==>
         && Views(j, us[i].0, ts[i].0) && Views(j, us[i].1, ts[i].1)
         && Unshared(ts[i].0) && Unshared(ts[i].1) && Addresses(ts[i].0) !! Addresses(ts[i].1)
         && EntryAddress(ts[i]) !! EntryAddresses(ts, i + 1)
  }

  lemma {:induction false} DrawEntries(j: Job, us: seq<(Value, Value)>, ts: seq<(Tree, Tree)>, lo: nat, level: nat,
                                       s: State)
    returns (r: State)
    requires lo <= |ts| && EntryTrees(j, us, ts) && s.pointers.Keys !! EntryAddresses(ts, lo)
    ensures Leads(j, s, MapTasks(us, lo, level), r)
    ensures Drawn(s, r, RenderEntries(j, ts, lo, InkOf(s)), EntryAddresses(ts, lo))
    decreases ts, 6, |ts| - lo
  {
    hide Leads, InkOf, Views, Unshared, Addresses, RenderEntry;
    if lo == |ts| {
      r := s;
      LeadsNowhere(j, s);
    } else {
      var s0 := DrawSpace(j, lo, s);
      var s1 := DrawEntry(j, us[lo], ts[lo], level, s0);
      r := DrawEntries(j, us, ts, lo + 1, level, s1);
      var entry := [Part(us[lo].0, level, true), Say(":"), Part(us[lo].1, level, true)];
      LeadsThen(j, s, Space(lo), s0, entry, s1);
      LeadsThen(j, s, Space(lo) + entry, s1, MapTasks(us, lo + 1, level), r);
    }
  }

  lemma DrawEntry(j: Job, u: (Value, Value), t: (Tree, Tree), level: nat, s: State) returns (r: State)
    requires Views(j, u.0, t.0) && Views(j, u.1, t.1) && Unshared(t.0) && Unshared(t.1)
    requires Addresses(t.0) !! Addresses(t.1) && s.pointers.Keys !! Addresses(t.0) + Addresses(t.1)
    ensures Leads(j, s, [Part(u.0, level, true), Say(":"), Part(u.1, level, true)], r)
    ensures Drawn(s, r, RenderEntry(j, t, InkOf(s)), Addresses(t.0) + Addresses(t.1))
    decreases t, 6, 0
  {
    hide Leads, Visible, Views, Unshared, Addresses, RenderPart;
    var s1 := DrawPart(j, u.0, t.0, level, true, s);
    var s2 := Put(s1, Text(":"));
    PutDrawn(s1, Text(":"));
    LeadsOne(j, s1, Say(":"));
    r := DrawPart(j, u.1, t.1, level, true, s2);
    var key, val := [Part(u.0, level, true)], [Part(u.1, level, true)];
    LeadsThen(j, s, key, s1, [Say(":")], s2);
    LeadsThen(j, s, key + [Say(":")], s2, val, r);
    assert key + [Say(":")] + val == [Part(u.0, level, true), Say(":"), Part(u.1, level, true)];
  }

  ghost predicate FieldTrees(j: Job, us: seq<(string, Value)>, ts: seq<(string, Tree)>) {
    && |us| == |ts|
    && forall i :: 0 <= i < |ts| ==>
         && us[i].0 == ts[i].0 && Views(j, us[i].1, ts[i].1)
         && Unshared(ts[i].1) && Addresses(ts[i].1) !! FieldAddresses(ts, i + 1)
  }

  lemma {:induction false} DrawFields(j: Job, us: seq<(string, Value)>, ts: seq<(string, Tree)>, lo: nat, level: nat,
                                      s: State)
    returns (r: State)
    requires lo <= |ts| && FieldTrees(j, us, ts) && s.pointers.Keys !! FieldAddresses(ts, lo)
    ensures Leads(j, s, StructTasks(j, us, lo, level), r)
    ensures Drawn(s, r, RenderFields(j, ts, lo, InkOf(s)), FieldAddresses(ts, lo))
    decreases ts, 6, |ts| - lo
  {
    hide Leads, InkOf, Views, Unshared, Addresses, RenderField;
    if lo == |ts| {
      r := s;
      LeadsNowhere(j, s);
    } else {
      var s0 := DrawSpace(j, lo, s);
      var s1 := DrawField(j, us[lo], ts[lo], level, s0);
      r := DrawFields(j, us, ts, lo + 1, level, s1);
      var field := NameTasks(j, us[lo].0) + [Part(us[lo].1, level, false)];
      var rest := StructTasks(j, us, lo + 1, level);
      LeadsThen(j, s, Space(lo), s0, field, s1);
      LeadsThen(j, s, Space(lo) + field, s1, rest, r);
      assert Space(lo) + field == Space(lo) + NameTasks(j, us[lo].0) + [Part(us[lo].1, level, false)];
    }
  }

  lemma DrawField(j: Job, u: (string, Value), t: (string, Tree), level: nat, s: State) returns (r: State)
    requires u.0 == t.0 && Views(j, u.1, t.1) && Unshared(t.1) && s.pointers.Keys !! Addresses(t.1)
    ensures Leads(j, s, NameTasks(j, u.0) + [Part(u.1, level, false)], r)
    ensures Drawn(s, r, RenderField(j, t, InkOf(s)), Addresses(t.1))
    decreases t, 6, 0
  {
    hide Leads, Visible, Views, Unshared, Addresses, RenderPart;
    var s1 := DrawName(j, u.0, s);
    r := DrawPart(j, u.1, t.1, level, false, s1);
    LeadsThen(j, s, NameTasks(j, u.0), s1, [Part(u.1, level, false)], r);
  }

  lemma DrawName(j: Job, name: string, s: State) returns (r: State)
    ensures Leads(j, s, NameTasks(j, name), r)
    ensures Drawn(s, r, if j.plus || j.sharp then Add(InkOf(s), name + ":") else InkOf(s), {})
  {
    hide Leads, Visible;
    if j.plus || j.sharp {
      var s1 := Put(s, Text(name));
      r := Put(s1, Text(":"));
      PutDrawn(s, Text(name));
      PutDrawn(s1, Text(":"));
      LeadsOne(j, s, Say(name));
      LeadsOne(j, s1, Say(":"));
      LeadsThen(j, s, [Say(name)], s1, [Say(":")], r);
      assert [Say(name)] + [Say(":")] == NameTasks(j, name);
      assert Visible(s.out) + name + ":" == Visible(s.out) + (name + ":");
    } else {
      r := s;
      LeadsNowhere(j, s);
    }
  }

  // ---- what is printed ----

  /** A value whose pointers hold different addresses is printed to the end, and what is printed is its text. */
  lemma PrintedIsRendered(j: Job, v: Value, t: Tree, out: seq<Chunk>)
    requires Views(j, v, t) && !t.Held? && Unshared(t)
    ensures Halts(j, v)
    ensures PrintOut(j, v, out) ==> Visible(out) == Render(j, t, Ink("", 0, false)).text
  {
    var r := Draw(j, v, t, 0, START);
    assert InkOf(START) == Ink("", 0, false);
    hide Views, Unshared, Visible, Render, Run, Addresses;
    var n: nat :| Run(j, n, Begin(v)) == Config(r, []);
    if PrintOut(j, v, out) {
      var k: nat :| Run(j, k, Begin(v)).tasks == [] && Run(j, k, Begin(v)).s.out == out;
      RunLonger(j, n, if n < k then k else n, Begin(v));
      RunLonger(j, k, if n < k then k else n, Begin(v));
    }
  }

  /** The value is finite: not nested more than `n` deep, with no pointer that leads nowhere. */
  ghost predicate Finite(j: Job, v: Value, n: nat)
    decreases n
  {
    match v
    case Ptr(a) => n > 0 && Boxed(j.heap, a) && Finite(j, j.heap[a].value, n - 1)
    case Iface(e) => n > 0 && !e.Iface? && !e.NilIface? && Finite(j, e, n - 1)
    case Map(_) =>
      n > 0 && forall e :: e in EntriesOf(j.heap, v) ==> Finite(j, e.0, n - 1) && Finite(j, e.1, n - 1)
    case Struct(fs) => n > 0 && forall f :: f in fs ==> Finite(j, f.1, n - 1)
    case List(_) => n > 0 && forall u :: u in Elems(j.heap, v) ==> Finite(j, u, n - 1)
    case Array(_) => n > 0 && forall u :: u in Elems(j.heap, v) ==> Finite(j, u, n - 1)
    case _ => true
  }

  /** Every finite value has a tree. */
  ghost function TreeOf(j: Job, v: Value, n: nat): (t: Tree)
    requires Finite(j, v, n)
    ensures Views(j, v, t) && (t.Held? <==> v.Iface?)
    decreases n, 0
  {
    var name := j.typeName(v);
    match v
    case Leaf(text) => Plain(name, text)
    case NilPtr => NilPointer(name)
    case NilIface => NilInterface(name)
    case NilList => NilOf(name)
    case NilMap => NilOf(name)
    case Ptr(a) => Pointer(j.at(a), TreeOf(j, j.heap[a].value, n - 1))
    case Iface(e) => Held(TreeOf(j, e, n - 1))
    case List(_) => ListOf(name, TreesOf(j, Elems(j.heap, v), n - 1))
    case Array(_) => ListOf(name, TreesOf(j, Elems(j.heap, v), n - 1))
    case Map(_) =>
      var es := EntriesOf(j.heap, v);
      MapOf(name, seq(|es|, i requires 0 <= i < |es| => (TreeOf(j, es[i].0, n - 1), TreeOf(j, es[i].1, n - 1))))
    case Struct(fs) => StructOf(name, seq(|fs|, i requires 0 <= i < |fs| => (fs[i].0, TreeOf(j, fs[i].1, n - 1))))
  }

  ghost function TreesOf(j: Job, us: seq<Value>, n: nat): (ts: seq<Tree>)
    requires forall u :: u in us ==> Finite(j, u, n)
    ensures |ts| == |us| && forall i :: 0 <= i < |us| ==> Views(j, us[i], ts[i])
    decreases n, |us| + 1
  {
    if us == [] then [] else [TreeOf(j, us[0], n)] + TreesOf(j, us[1..], n)
  }

  // ---- what is written at each value ----

  /** What a value starts with, if it is no pointer. */
  function Start(v: Value): Option<Chunk> {
    match v
    case Leaf(text) => Some(Text(text))
    case NilIface => Some(Text("<nil>"))
    case NilList => Some(Text("<nil>"))
    case NilMap => Some(Text("<nil>"))
    case List(_) => Some(Open(Lists))
    case Array(_) => Some(Open(Lists))
    case Map(_) => Some(Open(Maps))
    case Struct(_) => Some(Open(Structs))
    case _ => None
  }

  /** The start of the value stands right behind position `i`, or behind the type that stands there. */
  ghost predicate StartsAt(j: Job, out: seq<Chunk>, i: nat, v: Value, start: Chunk) {
    || (i + 1 < |out| && out[i + 1] == start)
    || (j.sharp && i + 2 < |out| && out[i + 1] == Text("(" + j.typeName(v) + ")") && out[i + 2] == start)
  }

  /** The printer turns to a value at position `i`, and not on the way along a chain of pointers. */
  predicate TurnsTo(out: seq<Chunk>, i: nat)
    requires i < |out|
  {
    out[i].At? && (i == 0 || !out[i - 1].Into?)
  }

  /** Where the printer turns to a value, the value starts. */
  ghost predicate StartOk(j: Job, out: seq<Chunk>, i: nat)
    requires i < |out|
  {
    TurnsTo(out, i) && Start(out[i].value).Some? ==>
      StartsAt(j, out, i, out[i].value, Start(out[i].value).value)
  }

  ghost predicate AllStart(j: Job, out: seq<Chunk>) {
    forall i :: 0 <= i < |out| ==> StartOk(j, out, i)
  }

  lemma AllStartConcat(j: Job, a: seq<Chunk>, b: seq<Chunk>)
    requires AllStart(j, a) && AllStart(j, b)
    ensures AllStart(j, a + b)
  {
    hide Start;
    forall i | 0 <= i < |a + b| ensures StartOk(j, a + b, i) {
      if i < |a| {
        assert StartOk(j, a, i);
      } else {
        assert StartOk(j, b, i - |a|);
      }
    }
  }

  /** What a task writes. */
  lemma DoStarts(j: Job, s: State, t: Task) returns (more: seq<Chunk>)
    ensures Do(j, s, t).0.out == s.out + more && AllStart(j, more)
  {
    hide AllStart, DoShow, DoChase;
    if t.Show? {
      more := ShowStarts(j, s, t.value, t.level);
    } else if t.Chase? {
      more := ChaseStarts(j, s, t.value, t.level, t.chain);
    } else {
      more := Do(j, s, t).0.out[|s.out|..];
      assert forall i :: 0 <= i < |more| ==> !more[i].At?;
      hide Do;
      NoTurns(j, more);
    }
  }

  lemma NoTurns(j: Job, out: seq<Chunk>)
    requires forall i :: 0 <= i < |out| && out[i].At? ==> i > 0 && out[i - 1].Into?
    ensures AllStart(j, out)
  {
    hide Start, StartsAt;
  }

  lemma ChaseStarts(j: Job, s: State, v: Value, level: nat, chain: seq<nat>) returns (more: seq<Chunk>)
    ensures DoChase(j, s, v, level, chain).0.out == s.out + more && AllStart(j, more)
  {
    more := DoChase(j, s, v, level, chain).0.out[|s.out|..];
    assert |more| > 1 && more[1].At? ==> more[0].Into?;
    assert forall i :: 0 <= i < |more| && i != 1 ==> !more[i].At?;
    hide DoChase;
    NoTurns(j, more);
  }

  lemma ShowStarts(j: Job, s: State, v: Value, level: nat) returns (more: seq<Chunk>)
    ensures DoShow(j, s, v, level).0.out == s.out + more && AllStart(j, more)
  {
    hide AllStart, DoShow;
    if Start(v).Some? {
      var mid := TypeShown(j, s, v, level);
      more := [At(v, level)] + mid + [Start(v).value];
      hide Start;
      ValueStarts(j, v, level, mid, Start(v).value);
    } else {
      more := PointerShown(j, s, v, level);
      PointerStarts(j, more);
    }
  }

  lemma TypeShown(j: Job, s: State, v: Value, level: nat) returns (mid: seq<Chunk>)
    requires Start(v).Some?
    ensures mid == [] || (j.sharp && mid == [Text("(" + j.typeName(v) + ")")])
    ensures DoShow(j, s, v, level).0.out == s.out + ([At(v, level)] + mid + [Start(v).value])
  {
    assert Stars(0) == "" && "(" + "" + j.typeName(v) == "(" + j.typeName(v);
    hide ContentTasks, Stars;
    mid := if j.sharp && !s.ignoreType then [Text("(" + j.typeName(v) + ")")] else [];
    assert s.out + [At(v, level)] + mid + [Start(v).value] == s.out + ([At(v, level)] + mid + [Start(v).value]);
  }

  lemma PointerShown(j: Job, s: State, v: Value, level: nat) returns (more: seq<Chunk>)
    requires Start(v).None?
    ensures DoShow(j, s, v, level).0.out == s.out + more
    ensures |more| > 0 && more[0] == At(v, level) && forall i :: 1 <= i < |more| ==> !more[i].At?
  {
    hide Stars;
    more := DoShow(j, s, v, level).0.out[|s.out|..];
  }

  lemma ValueStarts(j: Job, v: Value, level: nat, mid: seq<Chunk>, x: Chunk)
    requires Start(v) == Some(x) && (mid == [] || (j.sharp && mid == [Text("(" + j.typeName(v) + ")")]))
    ensures AllStart(j, [At(v, level)] + mid + [x])
  {
    var out := [At(v, level)] + mid + [x];
    assert StartOk(j, out, 0);
    assert forall i :: 0 < i < |out| ==> !out[i].At?;
    hide StartsAt, Start;
  }

  lemma PointerStarts(j: Job, out: seq<Chunk>)
    requires |out| > 0 && out[0].At? && Start(out[0].value).None? && forall i :: 1 <= i < |out| ==> !out[i].At?
    ensures AllStart(j, out)
  {
    hide StartsAt, Start;
  }

  lemma {:induction false} RunStarts(j: Job, n: nat, c: Config)
    requires AllStart(j, c.s.out)
    ensures AllStart(j, Run(j, n, c).s.out)
    decreases n
  {
    hide AllStart, Do;
    if n > 0 && c.tasks != [] {
      var more := DoStarts(j, c.s, c.tasks[0]);
      AllStartConcat(j, c.s.out, more);
      RunStarts(j, n - 1, Next(j, c));
    }
  }

  /** In every print-out, of any value: leaves stand as their texts, nil values as "<nil>", composite values behind
      their brackets. */
  lemma EveryValueStarts(j: Job, root: Value, out: seq<Chunk>)
    requires PrintOut(j, root, out)
    ensures forall i :: 0 <= i < |out| && TurnsTo(out, i) ==> StartsLike(j, out, i)
  {
    var k: nat :| Run(j, k, Begin(root)).tasks == [] && Run(j, k, Begin(root)).s.out == out;
    RunStarts(j, k, Begin(root));
    hide Run;
    forall i | 0 <= i < |out| && TurnsTo(out, i)
      ensures StartsLike(j, out, i)
    {
      StartMeans(j, out, i);
    }
    hide AllStart;
  }

  /** What the value at position `i` starts with. */
  ghost predicate StartsLike(j: Job, out: seq<Chunk>, i: nat)
    requires i < |out| && out[i].At?
  {
    var v := out[i].value;
    && (v.Leaf? ==> StartsAt(j, out, i, v, Text(v.text)))
    && (v.NilIface? || v.NilList? || v.NilMap? ==> StartsAt(j, out, i, v, Text("<nil>")))
    && (v.List? || v.Array? ==> StartsAt(j, out, i, v, Open(Lists)))
    && (v.Map? ==> StartsAt(j, out, i, v, Open(Maps)))
    && (v.Struct? ==> StartsAt(j, out, i, v, Open(Structs)))
  }

  lemma StartMeans(j: Job, out: seq<Chunk>, i: nat)
    requires AllStart(j, out) && i < |out| && TurnsTo(out, i)
    ensures StartsLike(j, out, i)
  {
    assert StartOk(j, out, i);
    hide StartsAt;
  }

  // ---- what is written at each pointer ----

  /** The text stands right behind position `i`, or behind the type of the value with a star for each pointer. */
  ghost predicate EndsAt(j: Job, out: seq<Chunk>, i: nat, v: Value, text: string) {
    || (i + 1 < |out| && out[i + 1] == Text(text))
    || (i + 2 < |out| && out[i + 2] == Text(text)
        && exists stars: nat :: out[i + 1] == Text("(" + Stars(stars) + j.typeName(v) + ")"))
  }

  /** If the printer turns to a pointer at position `i`, it follows it next, or says why not. */
  ghost predicate PointerOk(j: Job, out: seq<Chunk>, i: nat)
    requires i < |out|
  {
    && (out[i].At? && out[i].value.NilPtr? ==> EndsAt(j, out, i, out[i].value, "<nil>"))
    && (out[i].At? && out[i].value.Ptr? ==>
          (i + 1 < |out| && out[i + 1] == Into(out[i].value.addr)) || EndsAt(j, out, i, out[i].value, "<shown>"))
  }

  /** The pointer at position `i` is the last thing written, and next in turn. */
  ghost predicate Pending(c: Config, i: nat) {
    && i + 1 == |c.s.out| && c.s.out[i].At?
    && c.tasks != [] && c.tasks[0].Chase? && c.tasks[0].value == c.s.out[i].value
  }

  ghost predicate PointersOk(j: Job, c: Config) {
    forall i :: 0 <= i < |c.s.out| ==> PointerOk(j, c.s.out, i) || Pending(c, i)
  }

  lemma StillOk(j: Job, out: seq<Chunk>, more: seq<Chunk>, i: nat)
    requires i < |out| && PointerOk(j, out, i)
    ensures PointerOk(j, out + more, i)
  {
    hide Stars;
  }

  lemma StepPointersOk(j: Job, c: Config)
    requires PointersOk(j, c) && c.tasks != []
    ensures PointersOk(j, Next(j, c))
  {
    var out, out' := c.s.out, Next(j, c).s.out;
    assert out' == out + out'[|out|..] by {
      var more := DoStarts(j, c.s, c.tasks[0]);
      hide Do;
    }
    forall i | 0 <= i < |out'| ensures PointerOk(j, out', i) || Pending(Next(j, c), i) {
      if i < |out| && PointerOk(j, out, i) {
        hide Do, PointerOk, Pending;
        StillOk(j, out, out'[|out|..], i);
      } else if i < |out| {
        assert Pending(c, i);
        ChaseOk(j, c);
      } else if c.tasks[0].Show? {
        ShowOk(j, c, i);
      } else if c.tasks[0].Chase? {
        ChaseMoves(j, c, i);
      } else {
        hide DoShow, DoChase;
      }
    }
  }

  /** What stood last and was next in turn is followed, or the reason is given. */
  lemma ChaseOk(j: Job, c: Config)
    requires |c.s.out| > 0 && Pending(c, |c.s.out| - 1)
    ensures PointerOk(j, Next(j, c).s.out, |c.s.out| - 1)
  {
    var t := c.tasks[0];
    hide Stars;
    assert Next(j, c).s == DoChase(j, c.s, t.value, t.level, t.chain).0;
  }

  lemma ChaseMoves(j: Job, c: Config, i: nat)
    requires c.tasks != [] && c.tasks[0].Chase? && |c.s.out| <= i < |Next(j, c).s.out|
    ensures PointerOk(j, Next(j, c).s.out, i) || Pending(Next(j, c), i)
  {
    var t := c.tasks[0];
    hide Stars;
    assert Next(j, c).s == DoChase(j, c.s, t.value, t.level, t.chain).0;
  }

  lemma NilShown(j: Job, s: State, v: Value, level: nat)
    requires v.NilPtr? && (!j.sharp || s.ignoreType)
    ensures EndsAt(j, DoShow(j, s, v, level).0.out, |s.out|, v, "<nil>")
  {
    hide Stars;
  }

  lemma ShowOk(j: Job, c: Config, i: nat)
    requires c.tasks != [] && c.tasks[0].Show? && |c.s.out| <= i < |Next(j, c).s.out|
    ensures PointerOk(j, Next(j, c).s.out, i) || Pending(Next(j, c), i)
  {
    var v, level := c.tasks[0].value, c.tasks[0].level;
    assert Next(j, c) == Config(DoShow(j, c.s, v, level).0, DoShow(j, c.s, v, level).1 + c.tasks[1..]);
    hide EndsAt, Next;
    if v.NilPtr? && (!j.sharp || c.s.ignoreType) {
      NilShown(j, c.s, v, level);
    } else if v.Ptr? || v.NilPtr? {
      hide Pruned;
      assert DoShow(j, c.s, v, level).0.out == c.s.out + [At(v, level)];
    } else {
      NoPointerShown(j, c.s, v, level, i);
    }
  }

  lemma NoPointerShown(j: Job, s: State, v: Value, level: nat, i: nat)
    requires !v.Ptr? && !v.NilPtr? && |s.out| <= i < |DoShow(j, s, v, level).0.out|
    ensures var x := DoShow(j, s, v, level).0.out[i]; x.At? ==> x.value == v
  {
    hide Stars, ContentTasks;
  }

  lemma {:induction false} RunPointersOk(j: Job, n: nat, c: Config)
    requires PointersOk(j, c)
    ensures PointersOk(j, Run(j, n, c))
    decreases n
  {
    hide PointersOk, Next;
    if n > 0 && c.tasks != [] {
      StepPointersOk(j, c);
      RunPointersOk(j, n - 1, Next(j, c));
    }
  }

  /** In every print-out, of any value: a nil pointer stands as "<nil>", also at the end of a chain; any other pointer
      is followed, or stands as "<shown>". */
  lemma EveryPointerStarts(j: Job, root: Value, out: seq<Chunk>)
    requires PrintOut(j, root, out)
    ensures forall i :: 0 <= i < |out| && out[i].At? ==>
              var v := out[i].value;
              && (v.NilPtr? ==> EndsAt(j, out, i, v, "<nil>"))
              && (v.Ptr? ==> (i + 1 < |out| && out[i + 1] == Into(v.addr)) || EndsAt(j, out, i, v, "<shown>"))
  {
    var k: nat :| Run(j, k, Begin(root)).tasks == [] && Run(j, k, Begin(root)).s.out == out;
    RunPointersOk(j, k, Begin(root));
    hide Run, EndsAt;
    forall i | 0 <= i < |out| && out[i].At? ensures PointerOk(j, out, i) {
    }
  }

  // ---- what that looks like ----

  function TextOf(j: Job, t: Tree): string {
    Render(j, t, Ink("", 0, false)).text
  }

  lemma LeafTarget(j: Job, name: string, x: string, stars: nat)
    ensures RenderTarget(j, Plain(name, x), stars, Ink("", 0, false)).text
            == if j.sharp then "(" + Stars(stars) + name + ")" + x else x
  {
    hide Stars;
  }

  lemma PointerTexts(j: Job, a: nat, b: nat, t: Tree)
    ensures TextOf(j, Pointer(a, t)) == RenderTarget(j, t, 1, Ink("", 0, false)).text
    ensures TextOf(j, Pointer(a, Pointer(b, t))) == RenderTarget(j, t, 2, Ink("", 0, false)).text
  {
    assert RenderTarget(j, Pointer(b, t), 1, Ink("", 0, false)) == RenderTarget(j, t, 2, Ink("", 0, false));
  }

  /** Nothing, also at the end of a chain, without types. */
  lemma NilTexts(j: Job, name: string, a: nat, b: nat)
    requires !j.sharp
    ensures TextOf(j, NilOf(name)) == "<nil>" && TextOf(j, NilPointer(name)) == "<nil>"
    ensures TextOf(j, Pointer(a, NilPointer(name))) == "<nil>"
  {
    PointerTexts(j, a, b, NilPointer(name));
    var start := Ink("", 0, false);
    assert RenderTarget(j, NilPointer(name), 1, start) == Add(start, "<nil>");
  }

  lemma LeafText(j: Job, name: string, x: string)
    ensures TextOf(j, Plain(name, x)) == if j.sharp then "(" + name + ")" + x else x
  {
    assert Stars(0) == "" && "(" + "" == "(";
    hide Stars;
  }

  /** A leaf, and pointers to it; with types, one star for each pointer that is followed. */
  lemma LeafTexts(j: Job, name: string, x: string, a: nat, b: nat)
    ensures TextOf(j, Plain(name, x)) == if j.sharp then "(" + name + ")" + x else x
    ensures TextOf(j, Pointer(a, Plain(name, x))) == if j.sharp then "(*" + name + ")" + x else x
    ensures TextOf(j, Pointer(a, Pointer(b, Plain(name, x)))) == if j.sharp then "(**" + name + ")" + x else x
  {
    assert Stars(1) == "*" && Stars(2) == "**";
    assert "(" + "*" == "(*" && "(" + "**" == "(**";
    hide Stars, Render, RenderTarget;
    LeafText(j, name, x);
    LeafTarget(j, name, x, 1);
    LeafTarget(j, name, x, 2);
    PointerTexts(j, a, b, Plain(name, x));
  }

  /** The texts with blanks between them. */
  function Spaced(xs: seq<string>): string {
    if xs == [] then "" else if |xs| == 1 then xs[0] else Spaced(xs[..|xs| - 1]) + " " + xs[|xs| - 1]
  }

  /** A leaf as a part, where its type is not wanted. */
  lemma LeafPart(j: Job, name: string, x: string, skipType: bool, ink: Ink)
    requires skipType || !j.sharp
    ensures RenderPart(j, Plain(name, x), skipType, ink) == Ink(ink.text + x, ink.depth, false)
  {
  }

  /** A list of leaves: their texts in order, in brackets. */
  lemma ListText(j: Job, name: string, ts: seq<Tree>, xs: seq<string>)
    requires |ts| == |xs| <= 16 && forall i :: 0 <= i < |ts| ==> ts[i].Plain? && ts[i].text == xs[i]
    requires !j.sharp && j.maxDepth == 0
    ensures TextOf(j, ListOf(name, ts)) == "[" + Spaced(xs) + "]"
  {
    var start := Ink("[", 1, false);
    assert xs[..|xs|] == xs && start.text + "" == start.text;
    LeavesText(j, ts, xs, 0, |ts|, start);
    hide RenderElems, Spaced;
    assert Enter(Ink("", 0, false), "[") == start;
    assert TextOf(j, ListOf(name, ts)) == RenderContents(j, ListOf(name, ts), start).text;
    assert RenderParts(j, ListOf(name, ts), start) == RenderElems(j, ts, 0, |ts|, start);
    assert RenderContents(j, ListOf(name, ts), start).text == RenderElems(j, ts, 0, |ts|, start).text + "]";
  }

  lemma {:induction false} LeavesText(j: Job, ts: seq<Tree>, xs: seq<string>, lo: nat, hi: nat, ink: Ink)
    requires |ts| == |xs| && lo <= hi <= |ts| && forall i :: 0 <= i < |ts| ==> ts[i].Plain? && ts[i].text == xs[i]
    requires ink.text == "[" + Spaced(xs[..lo])
    ensures RenderElems(j, ts, lo, hi, ink).text == "[" + Spaced(xs[..hi])
    decreases hi - lo
  {
    hide RenderPart;
    if lo < hi {
      var next := RenderPart(j, ts[lo], true, Blank(lo, ink));
      assert ts[lo] == Plain(ts[lo].name, xs[lo]);
      LeafPart(j, ts[lo].name, xs[lo], true, Blank(lo, ink));
      assert xs[..lo + 1][..lo] == xs[..lo];
      assert lo > 0 ==> "[" + Spaced(xs[..lo]) + " " + xs[lo] == "[" + (Spaced(xs[..lo]) + " " + xs[lo]);
      assert next.text == "[" + Spaced(xs[..lo + 1]);
      LeavesText(j, ts, xs, lo + 1, hi, next);
    }
  }

  /** A long list of leaves: the first four, the number of elements, the last four, and no closing bracket. */
  lemma LongListText(j: Job, name: string, ts: seq<Tree>, xs: seq<string>)
    requires |ts| == |xs| > 16 && forall i :: 0 <= i < |ts| ==> ts[i].Plain? && ts[i].text == xs[i]
    requires !j.sharp && j.maxDepth == 0
    ensures var n := |xs|;
            TextOf(j, ListOf(name, ts))
            == "[" + Spaced(xs[..4]) + " <-[" + Decimal(n) + "]->" + " " + xs[n - 4] + " " + xs[n - 3]
               + " " + xs[n - 2] + " " + xs[n - 1]
  {
    var n, start := |xs|, Ink("[", 1, false);
    assert Spaced(xs[..0]) == "" && start.text + "" == start.text;
    LeavesText(j, ts, xs, 0, 4, start);
    var first := RenderElems(j, ts, 0, 4, start);
    var note := RenderMiddle(j, n, first);
    hide Decimal, Spaced, RenderElems;
    assert note.text == "[" + Spaced(xs[..4]) + " <-[" + Decimal(n) + "]->" by {
      assert first.text + (" <-[" + Decimal(n) + "]->") == first.text + " <-[" + Decimal(n) + "]->";
    }
    LastFour(j, ts, xs, note);
    RenderList(j, name, ts);
    assert RenderContents(j, ListOf(name, ts), start) == RenderElems(j, ts, n - 4, n, note);
    hide RenderContents;
  }

  lemma LastFour(j: Job, ts: seq<Tree>, xs: seq<string>, ink: Ink)
    requires |ts| == |xs| > 4 && forall i :: 0 <= i < |ts| ==> ts[i].Plain? && ts[i].text == xs[i]
    ensures var n := |xs|;
            RenderElems(j, ts, n - 4, n, ink).text
            == ink.text + " " + xs[n - 4] + " " + xs[n - 3] + " " + xs[n - 2] + " " + xs[n - 1]
  {
    var n := |xs|;
    var a := OneMore(j, ts, n - 4, ink);
    var b := OneMore(j, ts, n - 3, a);
    var c := OneMore(j, ts, n - 2, b);
    var d := OneMore(j, ts, n - 1, c);
    assert RenderElems(j, ts, n, n, d) == d;
  }

  lemma OneMore(j: Job, ts: seq<Tree>, lo: nat, ink: Ink) returns (r: Ink)
    requires 0 < lo < |ts| && ts[lo].Plain?
    ensures RenderElems(j, ts, lo, |ts|, ink) == RenderElems(j, ts, lo + 1, |ts|, r)
    ensures r.text == ink.text + " " + ts[lo].text
  {
    hide RenderPart;
    r := RenderPart(j, ts[lo], true, Blank(lo, ink));
    LeafPart(j, ts[lo].name, ts[lo].text, true, Blank(lo, ink));
  }

  /** What is too deep is replaced. */
  lemma DeepText(j: Job, outer: string, inner: string, ts: seq<Tree>)
    requires !j.sharp && j.maxDepth == 1
    ensures TextOf(j, ListOf(outer, [ListOf(inner, ts)])) == "[[<max>]]"
    ensures TextOf(j, ListOf(outer, [StructOf(inner, [])])) == "[{<max>}]"
    ensures TextOf(j, ListOf(outer, [MapOf(inner, [])])) == "[map[<max>]]"
  {
    TooDeepText(j, inner, ts);
    OnlyElem(j, outer, ListOf(inner, ts));
    OnlyElem(j, outer, StructOf(inner, []));
    OnlyElem(j, outer, MapOf(inner, []));
    hide Render;
  }

  lemma TooDeepText(j: Job, inner: string, ts: seq<Tree>)
    requires !j.sharp && j.maxDepth == 1
    ensures Render(j, ListOf(inner, ts), Ink("[", 1, true)) == Ink("[[<max>]", 1, false)
    ensures Render(j, StructOf(inner, []), Ink("[", 1, true)) == Ink("[{<max>}", 1, false)
    ensures Render(j, MapOf(inner, []), Ink("[", 1, true)) == Ink("[map[<max>]", 1, false)
  {
  }

  lemma OnlyElem(j: Job, name: string, t: Tree)
    requires !j.sharp && j.maxDepth == 1 && !t.Held? && !t.NilInterface?
    ensures TextOf(j, ListOf(name, [t])) == Render(j, t, Ink("[", 1, true)).text + "]"
  {
    hide Render;
    var start := Ink("[", 1, false);
    var end := RenderPart(j, t, true, start);
    assert RenderElems(j, [t], 1, 1, end) == end;
    assert RenderElems(j, [t], 0, 1, start) == end;
    assert Enter(Ink("", 0, false), "[") == start;
    assert RenderContents(j, ListOf(name, [t]), start).text == end.text + "]";
    RenderList(j, name, [t]);
  }

  lemma RenderList(j: Job, name: string, ts: seq<Tree>)
    requires !j.sharp
    ensures TextOf(j, ListOf(name, ts)) == RenderContents(j, ListOf(name, ts), Ink("[", 1, false)).text
  {
    assert Enter(Ink("", 0, false), "[") == Ink("[", 1, false);
    hide RenderContents;
  }

  /** A map with one entry, without types. */
  lemma MapText(j: Job, name: string, x: string, y: string)
    requires !j.sharp && j.maxDepth == 0
    ensures TextOf(j, MapOf(name, [(Plain(name, x), Plain(name, y))])) == "map[" + x + ":" + y + "]"
  {
    hide RenderPart;
    var e, start := (Plain(name, x), Plain(name, y)), Ink("map[", 1, false);
    LeafPart(j, name, x, true, start);
    LeafPart(j, name, y, true, Ink("map[" + x + ":", 1, false));
    var end := RenderEntry(j, e, start);
    assert end.text == "map[" + x + ":" + y;
    assert RenderEntries(j, [e], 1, end) == end;
    assert RenderEntries(j, [e], 0, start) == end;
    assert Enter(Ink("", 0, false), "map[") == start;
    hide RenderEntries;
    assert RenderContents(j, MapOf(name, [e]), start).text == end.text + "]";
  }

  /** A struct with two fields, without types; '+' asks for the names. */
  lemma StructText(j: Job, name: string, x: string, y: string, f: string, g: string)
    requires !j.sharp && j.maxDepth == 0
    ensures TextOf(j, StructOf(name, [(f, Plain(name, x)), (g, Plain(name, y))]))
            == if j.plus then "{" + f + ":" + x + " " + g + ":" + y + "}" else "{" + x + " " + y + "}"
  {
    var start, fs := Ink("{", 1, false), [(f, Plain(name, x)), (g, Plain(name, y))];
    var end := RenderFields(j, fs, 0, start);
    FieldsText(j, name, x, y, f, g);
    assert Enter(Ink("", 0, false), "{") == start;
    hide RenderFields;
    assert RenderContents(j, StructOf(name, fs), start).text == end.text + "}";
  }

  lemma FieldsText(j: Job, name: string, x: string, y: string, f: string, g: string)
    requires !j.sharp
    ensures RenderFields(j, [(f, Plain(name, x)), (g, Plain(name, y))], 0, Ink("{", 1, false)).text
            == if j.plus then "{" + f + ":" + x + " " + g + ":" + y else "{" + x + " " + y
  {
    hide RenderField;
    var start, fs := Ink("{", 1, false), [(f, Plain(name, x)), (g, Plain(name, y))];
    FieldText(j, f, name, x, start);
    var first := RenderField(j, fs[0], start);
    FieldText(j, g, name, y, Add(first, " "));
    var second := RenderField(j, fs[1], Add(first, " "));
    assert RenderFields(j, fs, 2, second) == second;
    assert RenderFields(j, fs, 1, first) == second;
    assert RenderFields(j, fs, 0, start) == second;
    hide RenderFields;
    assert "{" + (f + ":") + x + " " + (g + ":") + y == "{" + f + ":" + x + " " + g + ":" + y;
  }

  lemma FieldText(j: Job, f: string, name: string, x: string, ink: Ink)
    requires !j.sharp
    ensures RenderField(j, (f, Plain(name, x)), ink)
            == Ink(if j.plus then ink.text + (f + ":") + x else ink.text + x, ink.depth, false)
  {
    hide RenderPart;
    LeafPart(j, name, x, false, ink);
    LeafPart(j, name, x, false, Add(ink, f + ":"));
  }
}
