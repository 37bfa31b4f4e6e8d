/** The recursive value printer. */
module Viewer {
  import opened Wrappers
  import opened Heaps
  import opened Printer
  import opened Balance
  import opened Brackets
  import opened Halting
  import Nesting
  import opened Printing
  import opened Rendering

  /** One task done, the others to come. */
  lemma Peel(j: Job, n: nat, s: State, t: Task, rest: seq<Task>)
    requires Run(j, n, Config(s, [t] + rest)).tasks == [] && Do(j, s, t).1 == []
    ensures Run(j, n, Config(Do(j, s, t).0, rest)) == Run(j, n, Config(s, [t] + rest))
  {
    hide Do;
    RunFrame(j, n, s, [t], rest);
    assert [t][1..] == [] && Do(j, s, t).1 + [] == [];
    assert Next(j, Config(s, [t])) == Config(Do(j, s, t).0, []);
    assert n > 0;
    assert Run(j, n - 1, Config(Do(j, s, t).0, [])) == Config(Do(j, s, t).0, []);
  }

  /** The first step of a task. */
  lemma Unfold(j: Job, n: nat, s: State, t: Task)
    requires Run(j, n, Config(s, [t])).tasks == []
    ensures n > 0
    ensures Run(j, n - 1, Config(Do(j, s, t).0, Do(j, s, t).1)) == Run(j, n, Config(s, [t]))
  {
    hide Do;
    assert [t][1..] == [];
    assert Do(j, s, t).1 + [] == Do(j, s, t).1;
  }

  lemma UnfoldShow(j: Job, n: nat, s: State, v: Value, level: nat)
    requires Run(j, n, Config(s, [Show(v, level)])).tasks == []
    ensures n > 0
    ensures Run(j, n - 1, Config(DoShow(j, s, v, level).0, DoShow(j, s, v, level).1))
            == Run(j, n, Config(s, [Show(v, level)]))
  {
    hide Run, DoShow;
    Unfold(j, n, s, Show(v, level));
  }

  /** The tasks for the fields from `i` on, the first of them apart. */
  lemma FirstField(j: Job, fs: seq<(string, Value)>, i: nat, level: nat)
    requires i <= |fs|
    ensures i == |fs| ==> StructTasks(j, fs, i, level) == []
    ensures i < |fs| ==>
              StructTasks(j, fs, i, level)
              == Space(i) + (NameTasks(j, fs[i].0) + ([Part(fs[i].1, level, false)] + StructTasks(j, fs, i + 1, level)))
  {
  }

  class FormatState {
    const j: Job
    var depth: int
    var pointers: map<nat, int>
    var ignoreNextType: bool
    var out: seq<Chunk>

    ghost function Value(): State
      reads this
    {
      State(depth, pointers, ignoreNextType, out)
    }

    constructor (j: Job)
      ensures this.j == j && Value() == START
    {
      this.j := j;
      depth, pointers, ignoreNextType, out := 0, map[], false, [];
    }

    method Write(c: Chunk)
      modifies `out
      ensures Value() == Put(old(Value()), c)
    {
      out := out + [c];
    }

    method WriteType(stars: nat, name: string)
      modifies `out
      ensures Value() == PutType(j, old(Value()), stars, name)
    {
      if j.sharp && !ignoreNextType {
        Write(Text("(" + Stars(stars) + name + ")"));
      }
    }

    /** Deletes the entries of depth `depth` or more. */
    method Prune()
      modifies `pointers
      ensures pointers == map a | a in old(pointers) && old(pointers)[a] < depth :: old(pointers)[a]
    {
      var left := pointers.Keys;
      while left != {}
        invariant left <= old(pointers).Keys
        invariant pointers == map a | a in old(pointers) && (a in left || old(pointers)[a] < depth)
                                  :: old(pointers)[a]
        decreases left
      {
        var a :| a in left;
        if pointers[a] >= depth {
          pointers := pointers - {a};
        }
        left := left - {a};
      }
    }

    /** Looks into an interface; its content shows its type. */
    method UnpackValue(v: Value) returns (u: Value)
      modifies `ignoreNextType
      ensures u == Unpack(v)
      ensures ignoreNextType == (!v.Iface? && !v.NilIface? && old(ignoreNextType))
    {
      u := v;
      if v.Iface? || v.NilIface? {
        ignoreNextType := false;
        if v.Iface? {
          u := v.elem;
        }
      }
    }

    /** Does the tasks of the machine: the state is the one that the machine ends in. `n` bounds its steps. */
    twostate predicate Does(n: nat, s: State, tasks: seq<Task>)
      reads this
    {
      Run(j, n, Config(s, tasks)) == Config(Value(), [])
    }

    /** format: prints a value. `level` is noted, and has no other effect. */
    method Format(v: Value, level: nat, ghost n: nat)
      requires Run(j, n, Config(Value(), [Show(v, level)])).tasks == []
      modifies this
      ensures Does(n, old(Value()), [Show(v, level)])
      decreases n, 3
    {
      hide Run, Do, DoShow;
      UnfoldShow(j, n, Value(), v, level);
      ghost var s := Value();
      Write(At(v, level));
      if v.Ptr? || v.NilPtr? {
        FormatPtr(v, level, s, n - 1);
        return;
      }
      WriteType(0, j.typeName(v));
      ignoreNextType := false;
      FormatKind(v, level, s, n - 1);
    }

    /** The part of format that depends on the kind of value. `s` is the state before the value was noted. */
    method FormatKind(v: Value, level: nat, ghost s: State, ghost n: nat)
      requires !v.Ptr? && !v.NilPtr?
      requires Value() == PutType(j, Put(s, At(v, level)), 0, j.typeName(v)).(ignoreType := false)
      requires Run(j, n, Config(DoShow(j, s, v, level).0, DoShow(j, s, v, level).1)).tasks == []
      modifies this
      ensures Does(n, DoShow(j, s, v, level).0, DoShow(j, s, v, level).1)
      decreases n, 4
    {
      hide Run, ContentTasks;
      assert Composite(v) ==> DoShow(j, s, v, level).0 == Opened(Value(), v);
      if v.List? || v.Array? {
        FormatList(v, level, n);
      } else if v.Map? {
        FormatMap(v, level, n);
      } else if v.Struct? {
        FormatStruct(v, level, n);
      } else {
        if v.Leaf? {
          Write(Text(v.text));
        } else if !v.Iface? {
          Write(Text("<nil>"));
        }
        Nothing(n);
      }
    }

    lemma Nothing(n: nat)
      ensures Run(j, n, Config(Value(), [])) == Config(Value(), [])
    {
    }

    /** formatPtr. `s` is the state before the value was noted. */
    method FormatPtr(v: Value, level: nat, ghost s: State, ghost n: nat)
      requires (v.Ptr? || v.NilPtr?) && Value() == Put(s, At(v, level))
      requires Run(j, n, Config(DoShow(j, s, v, level).0, DoShow(j, s, v, level).1)).tasks == []
      modifies this
      ensures Does(n, DoShow(j, s, v, level).0, DoShow(j, s, v, level).1)
      decreases n, 2
    {
      hide Run;
      if v.NilPtr? && (!j.sharp || ignoreNextType) {
        Write(Text("<nil>"));
        Nothing(n);
        return;
      }
      ghost var before := pointers;
      Prune();
      assert pointers == Pruned(before, depth);
      FollowPtr(v, level, n);
    }

    /** The loop that follows pointers, and what it leads to. */
    method FollowPtr(v: Value, level: nat, ghost n: nat)
      requires v.Ptr? || v.NilPtr?
      requires Run(j, n, Config(Value(), [Chase(v, level, [])])).tasks == []
      modifies this
      ensures Does(n, old(Value()), [Chase(v, level, [])])
      decreases n, 1
    {
      hide Run;
      var target, chain: seq<nat> := v, [];
      ghost var left: nat := n;
      while target.Ptr? && Follow(target)
        invariant left <= n
        invariant Run(j, left, Config(Value(), [Chase(target, level, chain)]))
                  == Run(j, n, Config(old(Value()), [Chase(v, level, [])]))
        decreases left
      {
        Unfold(j, left, Value(), Chase(target, level, chain));
        var addr := target.addr;
        target := Unpack(j.heap[addr].value);
        pointers := pointers[j.at(addr) := depth];
        out := out + [Into(addr), At(target, level)];
        chain := [addr] + chain;
        left := left - 1;
      }
      Unfold(j, left, Value(), Chase(target, level, chain));
      left := left - 1;
      ghost var s := Value();
      WriteType(|chain|, j.typeName(target));
      if target.NilPtr? || target.NilIface? {
        Write(Text("<nil>"));
      } else if target.Ptr? {
        Write(Text("<shown>"));
      } else {
        ignoreNextType := true;
        assert [Show(target, level), Return(chain)] == [Show(target, level)] + [Return(chain)];
        RunFrame(j, left, Value(), [Show(target, level)], [Return(chain)]);
        Format(target, level, left);
      }
      assert [Return(chain)] == [Return(chain)] + [];
      Peel(j, left, Value(), Return(chain), []);
      Write(Back(|chain|));
      Nothing(left);
    }

    /** The pointer leads somewhere, and was not followed at a smaller depth. */
    predicate Follow(v: Value)
      requires v.Ptr?
      reads this
    {
      v.addr in j.heap && j.heap[v.addr].Box? && !(j.at(v.addr) in pointers && pointers[j.at(v.addr)] < depth)
    }

    /** One part of a composite value. */
    method FormatPart(part: Value, level: nat, skipType: bool, ghost n: nat)
      requires Run(j, n, Config(Value(), [Part(part, level, skipType)])).tasks == []
      modifies this
      ensures Does(n, old(Value()), [Part(part, level, skipType)])
      decreases n, 0
    {
      Unfold(j, n, Value(), Part(part, level, skipType));
      hide Run;
      if skipType {
        ignoreNextType := true;
      }
      var u := UnpackValue(part);
      Format(u, level, n - 1);
    }

    /** The state once the bracket of a composite value is open. */
    ghost function Opened(s: State, v: Value): State
      requires Composite(v)
    {
      Put(s, Open(BracketOf(v))).(depth := s.depth + 1)
    }

    /** Writes an opening bracket and goes one level down; unless that is too deep, the contents are next. */
    method Enter(v: Value) returns (tooDeep: bool)
      requires Composite(v)
      modifies `out, `depth
      ensures Value() == Opened(old(Value()), v)
      ensures tooDeep == !Within(j.maxDepth, depth)
    {
      Write(Open(BracketOf(v)));
      depth := depth + 1;
      tooDeep := j.maxDepth != 0 && depth > j.maxDepth;
    }

    /** Goes one level up and writes the closing bracket. */
    method Leave(v: Value, ghost n: nat)
      requires Composite(v) && Run(j, n, Config(Value(), [Task.Leave(BracketOf(v))])).tasks == []
      modifies `out, `depth
      ensures Does(n, old(Value()), [Task.Leave(BracketOf(v))])
    {
      ghost var leave := Task.Leave(BracketOf(v));
      assert [leave] == [leave] + [];
      Peel(j, n, Value(), leave, []);
      hide Run;
      depth := depth - 1;
      Write(Close(BracketOf(v)));
      Nothing(n);
    }

    /** What is written in place of contents that are too deep. */
    method TooDeep(v: Value, ghost n: nat)
      requires Composite(v) && Run(j, n, Config(Value(), [Say("<max>"), Task.Leave(BracketOf(v))])).tasks == []
      modifies `out, `depth
      ensures Does(n, old(Value()), [Say("<max>"), Task.Leave(BracketOf(v))])
    {
      ghost var leave := [Task.Leave(BracketOf(v))];
      assert [Say("<max>")] + leave == [Say("<max>"), Task.Leave(BracketOf(v))];
      Peel(j, n, Value(), Say("<max>"), leave);
      hide Run;
      Write(Text("<max>"));
      Leave(v, n);
    }

    /** The elements lo..hi of a list. */
    method FormatRange(es: seq<Value>, lo: nat, hi: nat, level: nat, ghost n: nat)
      requires lo <= hi <= |es|
      requires Run(j, n, Config(Value(), ListTasks(es, lo, hi, level))).tasks == []
      modifies this
      ensures Does(n, old(Value()), ListTasks(es, lo, hi, level))
      decreases n, 1
    {
      hide Run;
      for i := lo to hi
        invariant Run(j, n, Config(Value(), ListTasks(es, i, hi, level)))
                  == Run(j, n, Config(old(Value()), ListTasks(es, lo, hi, level)))
      {
        ghost var rest := [Part(es[i], level, true)] + ListTasks(es, i + 1, hi, level);
        assert ListTasks(es, i, hi, level) == Space(i) + rest;
        WriteSpace(i, rest, n);
        RunFrame(j, n, Value(), [Part(es[i], level, true)], ListTasks(es, i + 1, hi, level));
        FormatPart(es[i], level, true, n);
      }
      Nothing(n);
    }

    /** A space before every part but the first. */
    method WriteSpace(i: nat, ghost rest: seq<Task>, ghost n: nat)
      requires Run(j, n, Config(Value(), Space(i) + rest)).tasks == []
      modifies `out
      ensures Run(j, n, Config(Value(), rest)) == Run(j, n, Config(old(Value()), Space(i) + rest))
    {
      if i > 0 {
        Peel(j, n, Value(), Say(" "), rest);
        hide Run;
        Write(Text(" "));
      } else {
        assert Space(i) + rest == rest;
      }
    }

    /** Text between parts. */
    method Speak(text: string, ghost rest: seq<Task>, ghost n: nat)
      requires Run(j, n, Config(Value(), [Say(text)] + rest)).tasks == []
      modifies `out
      ensures Run(j, n, Config(Value(), rest)) == Run(j, n, Config(old(Value()), [Say(text)] + rest))
    {
      Peel(j, n, Value(), Say(text), rest);
      hide Run;
      Write(Text(text));
    }

    method FormatList(v: Value, level: nat, ghost n: nat)
      requires v.List? || v.Array?
      requires Run(j, n, Config(Opened(Value(), v), ContentTasks(j, v, level + 1, depth + 1))).tasks == []
      modifies this
      ensures Does(n, Opened(old(Value()), v), ContentTasks(j, v, level + 1, old(depth) + 1))
      decreases n, 3
    {
      hide Run, ListTasks;
      var es := Elems(j.heap, v);
      var tooDeep := Enter(v);
      if tooDeep {
        TooDeep(v, n);
      } else if |es| > LONG {
        // Long lists leave the depth raised and the bracket open.
        assert PartTasks(j, v, level + 1) + [] == PartTasks(j, v, level + 1);
        FormatEnds(v, es, level + 1, n);
      } else {
        RunFrame(j, n, Value(), ListTasks(es, 0, |es|, level + 1), [Task.Leave(Lists)]);
        FormatRange(es, 0, |es|, level + 1, n);
        Leave(v, n);
      }
    }

    /** The first and the last elements of a long list, with the number of elements between them. */
    method FormatEnds(v: Value, es: seq<Value>, level: nat, ghost n: nat)
      requires (v.List? || v.Array?) && es == Elems(j.heap, v) && |es| > LONG
      requires Run(j, n, Config(Value(), PartTasks(j, v, level))).tasks == []
      modifies this
      ensures Does(n, old(Value()), PartTasks(j, v, level))
      decreases n, 2
    {
      hide Run, ListTasks;
      var total := |es|;
      ghost var first, last := ListTasks(es, 0, END, level), ListTasks(es, total - END, total, level);
      assert PartTasks(j, v, level) == first + ([Count(total)] + last);
      RunFrame(j, n, Value(), first, [Count(total)] + last);
      FormatRange(es, 0, END, level, n);
      Peel(j, n, Value(), Count(total), last);
      WriteType(0, "string");
      ignoreNextType := false;
      Write(Middle(total));
      FormatRange(es, total - END, total, level, n);
    }

    method FormatMap(v: Value, level: nat, ghost n: nat)
      requires v.Map?
      requires Run(j, n, Config(Opened(Value(), v), ContentTasks(j, v, level + 1, depth + 1))).tasks == []
      modifies this
      ensures Does(n, Opened(old(Value()), v), ContentTasks(j, v, level + 1, old(depth) + 1))
      decreases n, 2
    {
      hide Run, MapTasks;
      var es := EntriesOf(j.heap, v);
      var tooDeep := Enter(v);
      if tooDeep {
        TooDeep(v, n);
      } else {
        RunFrame(j, n, Value(), MapTasks(es, 0, level + 1), [Task.Leave(Maps)]);
        FormatEntries(es, level + 1, n);
        Leave(v, n);
      }
    }

    method FormatEntries(es: seq<(Value, Value)>, level: nat, ghost n: nat)
      requires Run(j, n, Config(Value(), MapTasks(es, 0, level))).tasks == []
      modifies this
      ensures Does(n, old(Value()), MapTasks(es, 0, level))
      decreases n, 1
    {
      hide Run;
      for i := 0 to |es|
        invariant Run(j, n, Config(Value(), MapTasks(es, i, level)))
                  == Run(j, n, Config(old(Value()), MapTasks(es, 0, level)))
      {
        ghost var key, val := [Part(es[i].0, level, true)], [Part(es[i].1, level, true)];
        ghost var rest := MapTasks(es, i + 1, level);
        assert MapTasks(es, i, level) == Space(i) + (key + ([Say(":")] + (val + rest)));
        WriteSpace(i, key + ([Say(":")] + (val + rest)), n);
        RunFrame(j, n, Value(), key, [Say(":")] + (val + rest));
        FormatPart(es[i].0, level, true, n);
        Speak(":", val + rest, n);
        RunFrame(j, n, Value(), val, rest);
        FormatPart(es[i].1, level, true, n);
      }
      Nothing(n);
    }

    method FormatStruct(v: Value, level: nat, ghost n: nat)
      requires v.Struct?
      requires Run(j, n, Config(Opened(Value(), v), ContentTasks(j, v, level + 1, depth + 1))).tasks == []
      modifies this
      ensures Does(n, Opened(old(Value()), v), ContentTasks(j, v, level + 1, old(depth) + 1))
      decreases n, 2
    {
      hide Run, StructTasks;
      var tooDeep := Enter(v);
      if tooDeep {
        TooDeep(v, n);
      } else {
        RunFrame(j, n, Value(), StructTasks(j, v.fields, 0, level + 1), [Task.Leave(Structs)]);
        FormatFields(v.fields, level + 1, n);
        Leave(v, n);
      }
    }

    method FormatFields(fs: seq<(string, Value)>, level: nat, ghost n: nat)
      requires Run(j, n, Config(Value(), StructTasks(j, fs, 0, level))).tasks == []
      modifies this
      ensures Does(n, old(Value()), StructTasks(j, fs, 0, level))
      decreases n, 1
    {
      hide Run, StructTasks, NameTasks, Space;
      for i := 0 to |fs|
        invariant Run(j, n, Config(Value(), StructTasks(j, fs, i, level)))
                  == Run(j, n, Config(old(Value()), StructTasks(j, fs, 0, level)))
      {
        ghost var field, rest := [Part(fs[i].1, level, false)], StructTasks(j, fs, i + 1, level);
        FirstField(j, fs, i, level);
        WriteSpace(i, NameTasks(j, fs[i].0) + (field + rest), n);
        WriteName(fs[i].0, field + rest, n);
        RunFrame(j, n, Value(), field, rest);
        FormatPart(fs[i].1, level, false, n);
      }
      FirstField(j, fs, |fs|, level);
      Nothing(n);
    }

    /** The name of a field, if names are wanted. */
    method WriteName(name: string, ghost rest: seq<Task>, ghost n: nat)
      requires Run(j, n, Config(Value(), NameTasks(j, name) + rest)).tasks == []
      modifies `out
      ensures Run(j, n, Config(Value(), rest)) == Run(j, n, Config(old(Value()), NameTasks(j, name) + rest))
    {
      hide Run;
      if j.plus || j.sharp {
        assert NameTasks(j, name) + rest == [Say(name)] + ([Say(":")] + rest);
        Speak(name, [Say(":")] + rest, n);
        Speak(":", rest, n);
      } else {
        assert NameTasks(j, name) + rest == rest;
      }
    }
  }

  /** Prints a value on which the machine ends; Ending.PrintableHalts says on which values it does. The print-out is
      that of the machine; a value whose pointers hold different addresses reads as Rendering.Render says, and leaves
      always read as their texts. No object is followed inside its own expansion. Only lists of more than 16 elements
      are cut short, and if none is, brackets are properly nested. As long as different pointers have different
      addresses, brackets are properly nested only if no list of more than 16 elements is reached, and, unless a
      depth limit and such a list come together, all pointers reached are followed. */
  method Print(j: Job, v: Value) returns (out: seq<Chunk>)
    requires Halts(j, v)
    ensures PrintOut(j, v, out)
    ensures forall t :: Views(j, v, t) && !t.Held? && Unshared(t) ==>
              Visible(out) == Render(j, t, Ink("", 0, false)).text
    ensures forall i :: 0 <= i < |out| && TurnsTo(out, i) && out[i].value.Leaf? ==>
              StartsAt(j, out, i, out[i].value, Text(out[i].value.text))
    ensures Nesting.Scan(out) == Some([])
    ensures OneAddress(j, v) && (j.maxDepth == 0 || NothingLong(j, v)) ==>
              forall a, l: nat :: Reached(j.heap, j.maxDepth, v, Ptr(a), l) && Boxed(j.heap, a) ==> Into(a) in out
    ensures forall n :: Middle(n) in out ==> ReachesLong(j.heap, j.maxDepth, v, n) && n > 16
    ensures Unclosed(out, Maps) == 0 && Unclosed(out, Structs) == 0 && Unclosed(out, Lists) == Cuts(out)
    ensures NothingLong(j, v) ==> Pairs(out) == Some([])
    ensures OneAddress(j, v) ==> (Pairs(out) == Some([]) <==> NothingLong(j, v))
  {
    ghost var n: nat :| Run(j, n, Begin(v)).tasks == [];
    hide Run, NothingLong, Reached, ReachesLong, OneAddress, Unclosed, Cuts, Pairs;
    var f := new FormatState(j);
    f.Format(v, 0, n);
    out := f.out;
    assert PrintOut(j, v, out);
    hide PrintOut;
    hide Views, Unshared, Visible, Render, StartsAt, TurnsTo;
    forall t | Views(j, v, t) && !t.Held? && Unshared(t) ensures Visible(out) == Render(j, t, Ink("", 0, false)).text {
      PrintedIsRendered(j, v, t, out);
    }
    EveryValueStarts(j, v, out);
    NoExpansionInsideItself(j, v, out);
    CutIffLong(j, v, out);
    BracketsNestIffNothingCut(j, v, out);
    BracketsNestIffNothingLong(j, v, out);
    forall a, l: nat |
      OneAddress(j, v) && (j.maxDepth == 0 || NothingLong(j, v)) && Reached(j.heap, j.maxDepth, v, Ptr(a), l)
      && Boxed(j.heap, a)
      ensures Into(a) in out
    {
      EveryPointerFollowed(j, v, out, a, l);
    }
  }
}
