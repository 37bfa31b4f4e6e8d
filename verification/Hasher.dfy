/** The structural hasher: what it computes, as a function of the value alone. */
module Hashing {
  import opened Wrappers
  import opened Permutations

  type Byte = n: nat | n < 256

  type Bytes = seq<Byte>

  type Word = n: nat | n < 0x1_0000_0000_0000_0000

  /** A 64-bit hash that absorbs one byte at a time, such as FNV-1. */
  datatype Algorithm = Algorithm(offset: Word, absorb: (Word, Byte) -> Word)

  function Absorb(alg: Algorithm, state: Word, bytes: Bytes): Word
    decreases |bytes|
  {
    if bytes == [] then state else Absorb(alg, alg.absorb(state, bytes[0]), bytes[1..])
  }

  function Digest(alg: Algorithm, bytes: Bytes): Word {
    Absorb(alg, alg.offset, bytes)
  }

  lemma {:induction false} AbsorbAppend(alg: Algorithm, state: Word, a: Bytes, b: Bytes)
    ensures Absorb(alg, state, a + b) == Absorb(alg, Absorb(alg, state, a), b)
    decreases |a|
  {
    if a == [] {
      assert a + b == b;
    } else {
      assert (a + b)[1..] == a[1..] + b;
      AbsorbAppend(alg, alg.absorb(state, a[0]), a[1..], b);
    }
  }

  /** The `n` lowest bytes of a number, least significant first. */
  function LowBytes(x: nat, n: nat): Bytes {
    if n == 0 then [] else [x % 256] + LowBytes(x / 256, n - 1)
  }

  /** The eight bytes of a word, least significant first. */
  function LittleEndian(x: Word): Bytes {
    LowBytes(x, 8)
  }

  /** Bitwise exclusive or. */
  function Xor(a: nat, b: nat): nat
    decreases a + b
  {
    if a == 0 && b == 0 then 0 else (a + b) % 2 + 2 * Xor(a / 2, b / 2)
  }

  lemma {:induction false} XorUnfold(a: nat, b: nat)
    ensures Xor(a, b) / 2 == Xor(a / 2, b / 2) && Xor(a, b) % 2 == (a + b) % 2
  {
  }

  lemma SameHalves(x: nat, y: nat)
    requires x / 2 == y / 2 && x % 2 == y % 2
    ensures x == y
  {
  }

  lemma ParityOfSum(p: nat, h: nat, a: nat, b: nat)
    requires p % 2 == (h + a) % 2
    ensures (p + b) % 2 == (h + a + b) % 2
  {
  }

  lemma {:induction false} XorSwap(h: nat, a: nat, b: nat)
    ensures Xor(Xor(h, a), b) == Xor(Xor(h, b), a)
    decreases h + a + b
  {
    if h + a + b > 0 {
      hide Xor;
      var p, q := Xor(h, a), Xor(h, b);
      XorUnfold(h, a);
      XorUnfold(h, b);
      XorUnfold(p, b);
      XorUnfold(q, a);
      XorSwap(h / 2, a / 2, b / 2);
      ParityOfSum(p, h, a, b);
      ParityOfSum(q, h, b, a);
      SameHalves(Xor(p, b), Xor(q, a));
    }
  }

  function Pow2(bits: nat): nat {
    if bits == 0 then 1 else 2 * Pow2(bits - 1)
  }

  lemma {:induction false} XorBelow(a: nat, b: nat, bits: nat)
    requires a < Pow2(bits) && b < Pow2(bits)
    ensures Xor(a, b) < Pow2(bits)
  {
    if bits > 0 {
      XorUnfold(a, b);
      XorBelow(a / 2, b / 2, bits - 1);
    }
  }

  lemma Pow2OfWord()
    ensures Pow2(64) == 0x1_0000_0000_0000_0000
  {
    assert Pow2(8) == 0x100 && Pow2(16) == 0x1_0000 && Pow2(24) == 0x100_0000 && Pow2(32) == 0x1_0000_0000;
    assert Pow2(40) == 0x100_0000_0000 && Pow2(48) == 0x1_0000_0000_0000 && Pow2(56) == 0x100_0000_0000_0000;
  }

  /** Exclusive or of two words is a word. */
  function XorWord(a: Word, b: Word): Word {
    Pow2OfWord();
    XorBelow(a, b, 64);
    Xor(a, b)
  }

  // ---- values ----

  datatype Tag = NoTag | Ignore | AsString | AsSet

  datatype Entry = Entry(key: Value, val: Value)

  /** A struct field. `blank` is a field named `_` of a struct that cannot be set; `stringer` is what the
      value's String method gives, if it has one. */
  datatype Field = Field(name: Bytes, value: Value, exported: bool, blank: bool, tag: Tag, isZero: bool,
                         stringer: Option<Bytes>)

  /** A value as the walker sees it. `Scalar` carries the bytes that are written for it; `NilPtr` the zero
      value of the type pointed to; a map its entries in the order in which they are visited. */
  datatype Value =
    | Scalar(bytes: Bytes)
    | Text(chars: Bytes)
    | Time(marshalled: Option<Bytes>)
    | NilIface
    | Iface(elem: Value)
    | NilPtr(zero: Value)
    | Ptr(target: Value)
    | Array(elems: seq<Value>)
    | Slice(elems: seq<Value>)
    | Map(entries: seq<Entry>)
    | Struct(name: Bytes, fields: seq<Field>)
    | Unhashable

  datatype Failure = UnknownKind | BadTime | NotStringer(field: Bytes)

  datatype Result = Ok(hash: Word) | Err(failure: Failure)

  datatype Options = Options(alg: Algorithm, zeroNil: bool, stringer: bool, sets: bool, ignoreZero: bool)

  /** What is written for the zero of type int. */
  const ZERO_INT: Bytes := [0, 0, 0, 0, 0, 0, 0, 0]

  function Ordered(o: Options, a: Word, b: Word): Word {
    Digest(o.alg, LittleEndian(a) + LittleEndian(b))
  }

  function Finish(o: Options, a: Word): Word {
    Digest(o.alg, LittleEndian(a))
  }

  // ---- the pure hash ----

  /** Pointers and interfaces are looked through; nil stands for a zero value. */
  function Visit(o: Options, v: Value): Result
    decreases v, 1
  {
    match v
    case Iface(e) => Visit(o, e)
    case Ptr(e) => if e.NilIface? && o.zeroNil then Err(UnknownKind) else Visit(o, e)
    case NilIface => Ok(Digest(o.alg, ZERO_INT))
    case NilPtr(zero) => if o.zeroNil then Kind(o, zero) else Ok(Digest(o.alg, ZERO_INT))
    case _ => Kind(o, v)
  }

  function Kind(o: Options, v: Value): Result
    decreases v, 0
  {
    match v
    case Scalar(bytes) => Ok(Digest(o.alg, bytes))
    case Text(chars) => Ok(Digest(o.alg, chars))
    case Time(m) => if m.Some? then Ok(Digest(o.alg, m.value)) else Err(BadTime)
    case Array(es) => VisitOrdered(o, es, 0)
    case Slice(es) => Finished(o, if o.sets then VisitSet(o, es, 0) else VisitOrdered(o, es, 0))
    case Map(es) => Finished(o, VisitEntries(o, es, 0))
    case Struct(name, fs) => VisitFields(o, fs, Digest(o.alg, name))
    case _ => Err(UnknownKind)
  }

  function Finished(o: Options, r: Result): Result {
    if r.Ok? then Ok(Finish(o, r.hash)) else r
  }

  function VisitOrdered(o: Options, es: seq<Value>, h: Word): Result
    decreases es, 0
  {
    if es == [] then Ok(h)
    else
      var c := Visit(o, es[0]);
      if c.Err? then c else VisitOrdered(o, es[1..], Ordered(o, h, c.hash))
  }

  function VisitSet(o: Options, es: seq<Value>, h: Word): Result
    decreases es, 0
  {
    if es == [] then Ok(h)
    else
      var c := Visit(o, es[0]);
      if c.Err? then c else VisitSet(o, es[1..], XorWord(h, c.hash))
  }

  function VisitEntry(o: Options, e: Entry): Result
    decreases e
  {
    var k := Visit(o, e.key);
    if k.Err? then k
    else
      var v := Visit(o, e.val);
      if v.Err? then v else Ok(Ordered(o, k.hash, v.hash))
  }

  function VisitEntries(o: Options, es: seq<Entry>, h: Word): Result
    decreases es, 0
  {
    if es == [] then Ok(h)
    else
      var c := VisitEntry(o, es[0]);
      if c.Err? then c else VisitEntries(o, es[1..], XorWord(h, c.hash))
  }

  /** Fields that the loop passes over without finishing the hash. */
  predicate Skipped(o: Options, f: Field) {
    !f.blank && (!f.exported || f.tag.Ignore? || (o.ignoreZero && f.isZero))
  }

  /** What a field that is not skipped contributes. */
  function VisitField(o: Options, f: Field): Result
    decreases f
  {
    var v := if (f.tag.AsString? || o.stringer) && f.stringer.Some? then Ok(Digest(o.alg, f.stringer.value))
             else if f.tag.AsString? then Err(NotStringer(f.name))
             else Visit(o, f.value);
    if v.Err? then v else Ok(Ordered(o, Digest(o.alg, f.name), v.hash))
  }

  function VisitFields(o: Options, fs: seq<Field>, h: Word): Result
    decreases fs, 0
  {
    if fs == [] then Ok(h)
    else if Skipped(o, fs[0]) then VisitFields(o, fs[1..], h)
    else if fs[0].blank then VisitFields(o, fs[1..], Finish(o, h))
    else
      var c := VisitField(o, fs[0]);
      if c.Err? then c else VisitFields(o, fs[1..], Finish(o, XorWord(h, c.hash)))
  }

  // ---- order does not matter ----

  /** The same success, and the same hash if there is one; which failure is met first may differ. */
  predicate Agree(r: Result, s: Result) {
    (r.Ok? <==> s.Ok?) && (r.Ok? ==> r.hash == s.hash)
  }

  /** The common shape of the unordered loops. */
  function XorAll(rs: seq<Result>, h: Word): Result {
    if rs == [] then Ok(h)
    else if rs[0].Err? then rs[0]
    else XorAll(rs[1..], XorWord(h, rs[0].hash))
  }

  lemma SwapFirstTwo(a: Result, b: Result, rest: seq<Result>, h: Word)
    ensures Agree(XorAll([a, b] + rest, h), XorAll([b, a] + rest, h))
  {
    assert ([a, b] + rest)[1..] == [b] + rest && ([b] + rest)[1..] == rest;
    assert ([b, a] + rest)[1..] == [a] + rest && ([a] + rest)[1..] == rest;
    if a.Ok? && b.Ok? {
      XorSwap(h, a.hash, b.hash);
    }
  }

  lemma {:induction false} MoveToFront(rs: seq<Result>, j: nat, h: Word)
    requires j < |rs|
    ensures Agree(XorAll(rs, h), XorAll([rs[j]] + (rs[..j] + rs[j + 1..]), h))
    decreases j
  {
    if j == 0 {
      assert [rs[0]] + (rs[..0] + rs[1..]) == rs;
    } else {
      var a, b, t := rs[0], rs[j], rs[1..];
      var rest := t[..j - 1] + t[j..];
      assert [b] + (rs[..j] + rs[j + 1..]) == [b, a] + rest;
      SwapFirstTwo(a, b, rest, h);
      assert ([a, b] + rest)[1..] == [b] + rest;
      if a.Ok? {
        MoveToFront(t, j - 1, XorWord(h, a.hash));
        assert XorAll(rs, h) == XorAll(t, XorWord(h, a.hash));
        assert XorAll([a, b] + rest, h) == XorAll([b] + rest, XorWord(h, a.hash));
      }
    }
  }

  /** The unordered combination depends on the multiset of contributions only. */
  lemma {:induction false} XorPermutation(rs: seq<Result>, ss: seq<Result>, h: Word)
    requires multiset(rs) == multiset(ss)
    ensures Agree(XorAll(rs, h), XorAll(ss, h))
    decreases |rs|
  {
    if rs == [] {
      assert |multiset(ss)| == 0;
    } else {
      var r := rs[0];
      assert r in multiset(ss);
      var j :| 0 <= j < |ss| && ss[j] == r;
      var rest := ss[..j] + ss[j + 1..];
      MoveToFront(ss, j, h);
      PermutationTail(rs, ss, j);
      assert ([r] + rest)[1..] == rest;
      if r.Ok? {
        XorPermutation(rs[1..], rest, XorWord(h, r.hash));
      }
    }
  }

  lemma {:induction false} EntriesAreXor(o: Options, es: seq<Entry>, h: Word)
    ensures VisitEntries(o, es, h) == XorAll(Each(es, e => VisitEntry(o, e)), h)
    decreases |es|
  {
    hide VisitEntry;
    if es != [] {
      var c := VisitEntry(o, es[0]);
      var f := e => VisitEntry(o, e);
      assert Each(es, f)[1..] == Each(es[1..], f);
      if c.Ok? {
        EntriesAreXor(o, es[1..], XorWord(h, c.hash));
      }
    }
  }

  lemma {:induction false} SetIsXor(o: Options, es: seq<Value>, h: Word)
    ensures VisitSet(o, es, h) == XorAll(Each(es, e => Visit(o, e)), h)
    decreases |es|
  {
    hide Visit;
    if es != [] {
      var c := Visit(o, es[0]);
      var f := e => Visit(o, e);
      assert Each(es, f)[1..] == Each(es[1..], f);
      if c.Ok? {
        SetIsXor(o, es[1..], XorWord(h, c.hash));
      }
    }
  }

  /** `w` is `v` with the entries of maps reordered, at any depth; with `sets`, the elements of slices too. */
  ghost predicate Same(sets: bool, v: Value, w: Value)
    decreases v
  {
    match v
    case Iface(e) => w.Iface? && Same(sets, e, w.elem)
    case Ptr(e) => w.Ptr? && Same(sets, e, w.target)
    case NilPtr(z) => w.NilPtr? && Same(sets, z, w.zero)
    case Array(es) => w.Array? && SameList(sets, es, w.elems)
    case Slice(es) =>
      w.Slice? && (if sets then exists mid :: multiset(mid) == multiset(w.elems) && SameList(sets, es, mid)
                   else SameList(sets, es, w.elems))
    case Map(es) => w.Map? && exists mid :: multiset(mid) == multiset(w.entries) && SameEntries(sets, es, mid)
    case Struct(name, fs) => w.Struct? && name == w.name && SameFields(sets, fs, w.fields)
    case _ => v == w
  }

  ghost predicate SameList(sets: bool, es: seq<Value>, fs: seq<Value>)
    decreases es
  {
    |es| == |fs| && (es == [] || (Same(sets, es[0], fs[0]) && SameList(sets, es[1..], fs[1..])))
  }

  ghost predicate SameEntry(sets: bool, e: Entry, f: Entry)
    decreases e
  {
    Same(sets, e.key, f.key) && Same(sets, e.val, f.val)
  }

  ghost predicate SameEntries(sets: bool, es: seq<Entry>, fs: seq<Entry>)
    decreases es
  {
    |es| == |fs| && (es == [] || (SameEntry(sets, es[0], fs[0]) && SameEntries(sets, es[1..], fs[1..])))
  }

  ghost predicate SameFields(sets: bool, fs: seq<Field>, gs: seq<Field>)
    decreases fs
  {
    |fs| == |gs| &&
    (fs == [] ||
     (&& gs[0] == fs[0].(value := gs[0].value) && Same(sets, fs[0].value, gs[0].value)
      && SameFields(sets, fs[1..], gs[1..])))
  }

  /** Leaving everything in place is one way of reordering. */
  lemma {:induction false} SameRefl(sets: bool, v: Value)
    ensures Same(sets, v, v)
    decreases v
  {
    match v
    case Iface(e) => SameRefl(sets, e);
    case Ptr(e) => SameRefl(sets, e);
    case NilPtr(z) => SameRefl(sets, z);
    case Array(es) => SameListRefl(sets, es);
    case Slice(es) => SameListRefl(sets, es);
    case Map(es) => SameEntriesRefl(sets, es);
    case Struct(name, fs) => SameFieldsRefl(sets, fs);
    case _ =>
  }

  lemma {:induction false} SameListRefl(sets: bool, es: seq<Value>)
    ensures SameList(sets, es, es)
    decreases es
  {
    if es != [] {
      SameRefl(sets, es[0]);
      SameListRefl(sets, es[1..]);
    }
  }

  lemma {:induction false} SameEntryRefl(sets: bool, e: Entry)
    ensures SameEntry(sets, e, e)
    decreases e
  {
    SameRefl(sets, e.key);
    SameRefl(sets, e.val);
  }

  lemma {:induction false} SameEntriesRefl(sets: bool, es: seq<Entry>)
    ensures SameEntries(sets, es, es)
    decreases es
  {
    if es != [] {
      SameEntryRefl(sets, es[0]);
      SameEntriesRefl(sets, es[1..]);
    }
  }

  lemma {:induction false} SameFieldsRefl(sets: bool, fs: seq<Field>)
    ensures SameFields(sets, fs, fs)
    decreases fs
  {
    if fs != [] {
      SameRefl(sets, fs[0].value);
      SameFieldsRefl(sets, fs[1..]);
    }
  }

  /** Any two iteration orders of a map are reorderings of each other, and so, with sets, are any two orders
      of a slice. */
  lemma PermutedIsSame(sets: bool, es: seq<Entry>, fs: seq<Entry>, xs: seq<Value>, ys: seq<Value>)
    requires multiset(es) == multiset(fs) && multiset(xs) == multiset(ys)
    ensures Same(sets, Map(es), Map(fs))
    ensures sets ==> Same(sets, Slice(xs), Slice(ys))
  {
    SameEntriesRefl(sets, es);
    SameListRefl(sets, xs);
  }

  /** Reordering changes neither success nor the hash. */
  lemma {:induction false} OrderDoesNotMatter(o: Options, v: Value, w: Value)
    requires Same(o.sets, v, w)
    ensures Agree(Visit(o, v), Visit(o, w)) && Agree(Kind(o, v), Kind(o, w))
    decreases v, 1
  {
    hide Digest, Finish, Ordered, XorWord, VisitOrdered, VisitSet, VisitEntries, VisitFields;
    hide SameList, SameEntries, SameFields;
    match v
    case Iface(e) => OrderDoesNotMatter(o, e, w.elem);
    case Ptr(e) => OrderDoesNotMatter(o, e, w.target);
    case NilPtr(z) => OrderDoesNotMatter(o, z, w.zero);
    case Array(es) => SameOrdered(o, es, w.elems, 0);
    case Slice(es) => SliceOrder(o, v, w);
    case Map(es) => MapOrder(o, v, w);
    case Struct(name, fs) => SameStruct(o, fs, w.fields, Digest(o.alg, name));
    case _ =>
  }

  lemma {:induction false} SliceOrder(o: Options, v: Value, w: Value)
    requires v.Slice? && Same(o.sets, v, w)
    ensures Agree(Kind(o, v), Kind(o, w))
    decreases v, 0
  {
    hide Visit, Finish, VisitSet, VisitOrdered;
    if o.sets {
      var mid :| multiset(mid) == multiset(w.elems) && SameList(o.sets, v.elems, mid);
      SameSet(o, v.elems, mid, 0);
      hide SameList;
      SetOrder(o, mid, w.elems);
    } else {
      SameOrdered(o, v.elems, w.elems, 0);
    }
  }

  lemma SetOrder(o: Options, es: seq<Value>, fs: seq<Value>)
    requires multiset(es) == multiset(fs)
    ensures Agree(VisitSet(o, es, 0), VisitSet(o, fs, 0))
  {
    hide Visit, VisitSet, XorAll, Each;
    var f := e => Visit(o, e);
    SetIsXor(o, es, 0);
    SetIsXor(o, fs, 0);
    EachPermutes(es, fs, f);
    XorPermutation(Each(es, f), Each(fs, f), 0);
  }

  lemma EntriesOrder(o: Options, es: seq<Entry>, fs: seq<Entry>)
    requires multiset(es) == multiset(fs)
    ensures Agree(VisitEntries(o, es, 0), VisitEntries(o, fs, 0))
  {
    hide VisitEntry, VisitEntries, XorAll, Each;
    var f := e => VisitEntry(o, e);
    EntriesAreXor(o, es, 0);
    EntriesAreXor(o, fs, 0);
    EachPermutes(es, fs, f);
    XorPermutation(Each(es, f), Each(fs, f), 0);
  }

  lemma {:induction false} MapOrder(o: Options, v: Value, w: Value)
    requires v.Map? && Same(o.sets, v, w)
    ensures Agree(Kind(o, v), Kind(o, w))
    decreases v, 0
  {
    hide Finish, VisitEntries;
    var mid :| multiset(mid) == multiset(w.entries) && SameEntries(o.sets, v.entries, mid);
    SameMap(o, v.entries, mid, 0);
    hide SameEntries;
    EntriesOrder(o, mid, w.entries);
  }

  lemma {:induction false} SameOrdered(o: Options, es: seq<Value>, fs: seq<Value>, h: Word)
    requires SameList(o.sets, es, fs)
    ensures Agree(VisitOrdered(o, es, h), VisitOrdered(o, fs, h))
    decreases es, 0
  {
    hide Visit, Ordered;
    if es != [] {
      OrderDoesNotMatter(o, es[0], fs[0]);
      if Visit(o, es[0]).Ok? {
        SameOrdered(o, es[1..], fs[1..], Ordered(o, h, Visit(o, es[0]).hash));
      }
    }
  }

  lemma {:induction false} SameSet(o: Options, es: seq<Value>, fs: seq<Value>, h: Word)
    requires SameList(o.sets, es, fs)
    ensures Agree(VisitSet(o, es, h), VisitSet(o, fs, h))
    decreases es, 0
  {
    hide Visit, XorWord;
    if es != [] {
      OrderDoesNotMatter(o, es[0], fs[0]);
      if Visit(o, es[0]).Ok? {
        SameSet(o, es[1..], fs[1..], XorWord(h, Visit(o, es[0]).hash));
      }
    }
  }

  lemma {:induction false} SameEntryHash(o: Options, e: Entry, f: Entry)
    requires SameEntry(o.sets, e, f)
    ensures Agree(VisitEntry(o, e), VisitEntry(o, f))
    decreases e, 0
  {
    hide Visit, Ordered;
    OrderDoesNotMatter(o, e.key, f.key);
    OrderDoesNotMatter(o, e.val, f.val);
  }

  lemma {:induction false} SameMap(o: Options, es: seq<Entry>, fs: seq<Entry>, h: Word)
    requires SameEntries(o.sets, es, fs)
    ensures Agree(VisitEntries(o, es, h), VisitEntries(o, fs, h))
    decreases es, 0
  {
    hide VisitEntry, XorWord;
    if es != [] {
      SameEntryHash(o, es[0], fs[0]);
      if VisitEntry(o, es[0]).Ok? {
        SameMap(o, es[1..], fs[1..], XorWord(h, VisitEntry(o, es[0]).hash));
      }
    }
  }

  lemma {:induction false} SameStruct(o: Options, fs: seq<Field>, gs: seq<Field>, h: Word)
    requires SameFields(o.sets, fs, gs)
    ensures Agree(VisitFields(o, fs, h), VisitFields(o, gs, h))
    decreases fs, 0
  {
    hide Visit, XorWord, Ordered, Finish, Digest;
    if fs != [] {
      OrderDoesNotMatter(o, fs[0].value, gs[0].value);
      assert Agree(VisitField(o, fs[0]), VisitField(o, gs[0]));
      assert Skipped(o, fs[0]) == Skipped(o, gs[0]);
      if Skipped(o, fs[0]) {
        SameStruct(o, fs[1..], gs[1..], h);
      } else if fs[0].blank {
        SameStruct(o, fs[1..], gs[1..], Finish(o, h));
      } else if VisitField(o, fs[0]).Ok? {
        SameStruct(o, fs[1..], gs[1..], Finish(o, XorWord(h, VisitField(o, fs[0]).hash)));
      }
    }
  }
}

/** The walker as it runs: one mutable hash object shared by the whole recursion. */
module Walking {
  import opened Hashing

  class Hash64 {
    const alg: Algorithm
    var state: Word

    constructor (alg: Algorithm)
      ensures this.alg == alg
    {
      this.alg := alg;
      state := alg.offset;
    }

    method Reset()
      modifies this
      ensures state == alg.offset
    {
      state := alg.offset;
    }

    method Write(bytes: Bytes)
      modifies this
      ensures state == Absorb(alg, old(state), bytes)
    {
      for i := 0 to |bytes|
        invariant Absorb(alg, state, bytes[i..]) == Absorb(alg, old(state), bytes)
      {
        assert bytes[i..][1..] == bytes[i + 1..];
        state := alg.absorb(state, bytes[i]);
      }
    }

    /** A fresh digest of some bytes, whatever was absorbed before. */
    method Sum(bytes: Bytes) returns (hash: Word)
      modifies this
      ensures hash == Digest(alg, bytes)
    {
      Reset();
      Write(bytes);
      hash := state;
    }
  }

  class Walker {
    const o: Options
    const h: Hash64

    constructor (o: Options)
      ensures this.o == o && h.alg == o.alg && fresh(h)
    {
      this.o := o;
      h := new Hash64(o.alg);
    }

    method HashOrdered(a: Word, b: Word) returns (hash: Word)
      requires h.alg == o.alg
      modifies h
      ensures hash == Ordered(o, a, b)
    {
      hide LittleEndian;
      h.Reset();
      h.Write(LittleEndian(a));
      h.Write(LittleEndian(b));
      AbsorbAppend(h.alg, h.alg.offset, LittleEndian(a), LittleEndian(b));
      hash := h.state;
    }

    method HashFinish(a: Word) returns (hash: Word)
      requires h.alg == o.alg
      modifies h
      ensures hash == Finish(o, a)
    {
      hash := h.Sum(LittleEndian(a));
    }

    /** visit. The result is the pure hash of the value: nothing left in the hash object by earlier visits
        can reach it. */
    method Visit(v: Value) returns (r: Result)
      requires h.alg == o.alg
      modifies h
      ensures r == Hashing.Visit(o, v)
      decreases v, 2
    {
      var u := v;
      while u.Iface? || u.Ptr?
        invariant u == v || u < v
        invariant Hashing.Visit(o, u) == Hashing.Visit(o, v)
        decreases u
      {
        if u.Iface? {
          u := u.elem;
        } else {
          if u.target.NilIface? && o.zeroNil {
            return Err(UnknownKind);
          }
          u := u.target;
        }
      }
      if u.NilIface? || (u.NilPtr? && !o.zeroNil) {
        var d := h.Sum(ZERO_INT);
        return Ok(d);
      }
      if u.NilPtr? {
        u := u.zero;
      }
      r := VisitKind(u);
    }

    method VisitKind(v: Value) returns (r: Result)
      requires h.alg == o.alg
      modifies h
      ensures r == Kind(o, v)
      decreases v, 1
    {
      hide VisitOrdered, VisitSet, VisitEntries, VisitFields, Digest, Finish;
      match v {
        case Scalar(bytes) => var d := h.Sum(bytes); return Ok(d);
        case Text(chars) => var d := h.Sum(chars); return Ok(d);
        case Time(m) =>
          if m.None? {
            return Err(BadTime);
          }
          var d := h.Sum(m.value);
          return Ok(d);
        case Array(es) => r := VisitElems(es, false);
        case Slice(es) =>
          r := VisitElems(es, o.sets);
          if r.Ok? {
            var d := HashFinish(r.hash);
            r := Ok(d);
          }
        case Map(es) =>
          r := VisitMap(es);
        case Struct(name, fs) =>
          var d := h.Sum(name);
          r := VisitStruct(fs, d);
        case _ => return Err(UnknownKind);
      }
    }

    method VisitElems(es: seq<Value>, unordered: bool) returns (r: Result)
      requires h.alg == o.alg
      modifies h
      ensures r == if unordered then VisitSet(o, es, 0) else VisitOrdered(o, es, 0)
      decreases es, 0
    {
      var acc: Word := 0;
      for i := 0 to |es|
        invariant unordered ==> VisitSet(o, es, 0) == VisitSet(o, es[i..], acc)
        invariant !unordered ==> VisitOrdered(o, es, 0) == VisitOrdered(o, es[i..], acc)
      {
        assert es[i..][1..] == es[i + 1..];
        var c := Visit(es[i]);
        if c.Err? {
          return c;
        }
        if unordered {
          acc := XorWord(acc, c.hash);
        } else {
          acc := HashOrdered(acc, c.hash);
        }
      }
      return Ok(acc);
    }

    method VisitPair(e: Entry) returns (r: Result)
      requires h.alg == o.alg
      modifies h
      ensures r == VisitEntry(o, e)
      decreases e, 0
    {
      r := Visit(e.key);
      if r.Ok? {
        var key := r.hash;
        r := Visit(e.val);
        if r.Ok? {
          var d := HashOrdered(key, r.hash);
          r := Ok(d);
        }
      }
    }

    method VisitMap(es: seq<Entry>) returns (r: Result)
      requires h.alg == o.alg
      modifies h
      ensures r == Finished(o, VisitEntries(o, es, 0))
      decreases es, 0
    {
      var acc: Word := 0;
      for i := 0 to |es|
        invariant VisitEntries(o, es, 0) == VisitEntries(o, es[i..], acc)
      {
        assert es[i..][1..] == es[i + 1..];
        var c := VisitPair(es[i]);
        if c.Err? {
          return c;
        }
        acc := XorWord(acc, c.hash);
      }
      acc := HashFinish(acc);
      return Ok(acc);
    }

    method VisitStruct(fs: seq<Field>, name: Word) returns (r: Result)
      requires h.alg == o.alg
      modifies h
      ensures r == VisitFields(o, fs, name)
      decreases fs, 0
    {
      var acc: Word := name;
      for i := 0 to |fs|
        invariant VisitFields(o, fs, name) == VisitFields(o, fs[i..], acc)
      {
        assert fs[i..][1..] == fs[i + 1..];
        var f := fs[i];
        if !f.blank {
          if !f.exported || f.tag.Ignore? || (o.ignoreZero && f.isZero) {
            continue;
          }
          if f.tag.AsString? && f.stringer.None? {
            return Err(NotStringer(f.name));
          }
          var k := h.Sum(f.name);
          var v;
          if (f.tag.AsString? || o.stringer) && f.stringer.Some? {
            var s := h.Sum(f.stringer.value);
            v := Ok(s);
          } else {
            v := Visit(f.value);
          }
          if v.Err? {
            return v;
          }
          var d := HashOrdered(k, v.hash);
          acc := XorWord(acc, d);
        }
        acc := HashFinish(acc);
      }
      return Ok(acc);
    }
  }
}
