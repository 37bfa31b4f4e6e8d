/** What the hash of a value depends on: every byte, element, entry and field that counts, and nothing else. */
module HashLaws {
  import opened Wrappers
  import opened Hashing

  // ---- bytes and words ----

  /** A digest starts at the offset and absorbs the bytes one after the other. */
  lemma DigestIs(alg: Algorithm, bytes: Bytes, b: Byte)
    ensures Digest(alg, []) == alg.offset
    ensures Digest(alg, bytes + [b]) == alg.absorb(Digest(alg, bytes), b)
  {
    AbsorbAppend(alg, alg.offset, bytes, [b]);
    assert [b][1..] == [];
    assert Absorb(alg, alg.absorb(Digest(alg, bytes), b), []) == alg.absorb(Digest(alg, bytes), b);
  }

  /** The number that bytes stand for, the least significant first. */
  function FromBytes(bytes: Bytes): nat {
    if bytes == [] then 0 else bytes[0] + 256 * FromBytes(bytes[1..])
  }

  function Pow256(n: nat): nat {
    if n == 0 then 1 else 256 * Pow256(n - 1)
  }

  lemma {:induction false} LowBytesAre(x: nat, n: nat)
    requires x < Pow256(n)
    ensures |LowBytes(x, n)| == n && FromBytes(LowBytes(x, n)) == x
    decreases n
  {
    if n > 0 {
      LowBytesAre(x / 256, n - 1);
      assert LowBytes(x, n)[1..] == LowBytes(x / 256, n - 1);
    }
  }

  /** A word is written as eight bytes that stand for it. */
  lemma LittleEndianIs(x: Word)
    ensures |LittleEndian(x)| == 8 && FromBytes(LittleEndian(x)) == x
  {
    assert Pow256(4) == 0x1_0000_0000 && Pow256(8) == 0x1_0000_0000_0000_0000;
    LowBytesAre(x, 8);
  }

  /** Bit by bit, the exclusive or is the sum without carry. */
  lemma {:induction false} XorBits(a: nat, b: nat, k: nat)
    ensures Shifted(Xor(a, b), k) % 2 == (Shifted(a, k) + Shifted(b, k)) % 2
  {
    XorUnfold(a, b);
    if k > 0 {
      XorBits(a / 2, b / 2, k - 1);
    }
  }

  /** `x` without its `k` lowest bits. */
  function Shifted(x: nat, k: nat): nat {
    if k == 0 then x else Shifted(x / 2, k - 1)
  }

  lemma {:induction false} XorZero(b: nat)
    ensures Xor(0, b) == b
  {
    XorUnfold(0, b);
    if b > 0 {
      XorZero(b / 2);
      SameHalves(Xor(0, b), b);
    }
  }

  lemma {:induction false} XorCancel(a: nat, b: nat, c: nat)
    requires Xor(a, b) == Xor(a, c)
    ensures b == c
    decreases a + b + c
  {
    if a + b + c > 0 {
      XorUnfold(a, b);
      XorUnfold(a, c);
      hide Xor;
      XorCancel(a / 2, b / 2, c / 2);
      SameParity(a, b, c);
      SameHalves(b, c);
    }
  }

  lemma SameParity(a: nat, b: nat, c: nat)
    requires (a + b) % 2 == (a + c) % 2
    ensures b % 2 == c % 2
  {
  }

  lemma {:induction false} XorCommutes(a: nat, b: nat)
    ensures Xor(a, b) == Xor(b, a)
    decreases a + b
  {
    if a + b > 0 {
      XorCommutes(a / 2, b / 2);
    }
  }

  // ---- algorithms without collisions ----

  /** Different inputs of eight bytes, and of sixteen, have different digests. */
  ghost predicate CollisionFree(alg: Algorithm) {
    forall a: Bytes, b: Bytes ::
      |a| == |b| && (|a| == 8 || |a| == 16) && Digest(alg, a) == Digest(alg, b) ==> a == b
  }

  lemma LittleEndianInjective(x: Word, y: Word)
    requires LittleEndian(x) == LittleEndian(y)
    ensures x == y
  {
    LittleEndianIs(x);
    LittleEndianIs(y);
    hide LittleEndian;
  }

  lemma FinishInjective(o: Options, a: Word, b: Word)
    requires CollisionFree(o.alg) && Finish(o, a) == Finish(o, b)
    ensures a == b
  {
    LittleEndianIs(a);
    LittleEndianIs(b);
    hide LittleEndian, Digest;
    assert LittleEndian(a) == LittleEndian(b);
    LittleEndianInjective(a, b);
  }

  lemma OrderedInjective(o: Options, a: Word, b: Word, c: Word, d: Word)
    requires CollisionFree(o.alg) && Ordered(o, a, b) == Ordered(o, c, d)
    ensures a == c && b == d
  {
    LittleEndianIs(a);
    LittleEndianIs(b);
    LittleEndianIs(c);
    LittleEndianIs(d);
    hide LittleEndian, Digest;
    var p, q := LittleEndian(a) + LittleEndian(b), LittleEndian(c) + LittleEndian(d);
    assert p == q;
    assert LittleEndian(a) == p[..8] && LittleEndian(b) == p[8..];
    assert LittleEndian(c) == q[..8] && LittleEndian(d) == q[8..];
    LittleEndianInjective(a, c);
    LittleEndianInjective(b, d);
  }

  // ---- plain values ----

  /** Scalars, texts and times are the digests of exactly their bytes. */
  lemma PlainHashes(o: Options, bytes: Bytes)
    ensures Visit(o, Scalar(bytes)) == Ok(Digest(o.alg, bytes))
    ensures Visit(o, Text(bytes)) == Ok(Digest(o.alg, bytes))
    ensures Visit(o, Time(Some(bytes))) == Ok(Digest(o.alg, bytes)) && Visit(o, Time(None)) == Err(BadTime)
  {
    hide Digest;
  }

  /** Nil is eight zero bytes, or with zeroNil the zero value of what is pointed to; pointers and interfaces are looked
      through; some kinds are refused. */
  lemma NilHashes(o: Options, v: Value, zero: Value)
    ensures Visit(o, NilIface) == Ok(Digest(o.alg, [0, 0, 0, 0, 0, 0, 0, 0]))
    ensures !o.zeroNil ==> Visit(o, NilPtr(zero)) == Ok(Digest(o.alg, [0, 0, 0, 0, 0, 0, 0, 0]))
    ensures o.zeroNil ==>
              Visit(o, NilPtr(zero))
              == if zero.Iface? || zero.NilIface? || zero.Ptr? || zero.NilPtr? then Err(UnknownKind) else Visit(o, zero)
    ensures Visit(o, Iface(v)) == Visit(o, v)
    ensures Visit(o, Ptr(v)) == if v.NilIface? && o.zeroNil then Err(UnknownKind) else Visit(o, v)
    ensures Visit(o, Unhashable) == Err(UnknownKind)
  {
    hide Digest;
  }

  // ---- arrays and slices ----

  /** Elements in order: equal hashes of lists of one length have pairwise equal hashes of elements. */
  lemma {:induction false} ListSensitive(o: Options, es: seq<Value>, fs: seq<Value>, h: Word, h': Word)
    requires CollisionFree(o.alg) && |es| == |fs|
    requires VisitOrdered(o, es, h).Ok? && VisitOrdered(o, es, h) == VisitOrdered(o, fs, h')
    ensures h == h' && forall i :: 0 <= i < |es| ==> Visit(o, es[i]).Ok? && Visit(o, es[i]) == Visit(o, fs[i])
    decreases |es|
  {
    hide Visit, Ordered, CollisionFree;
    if es != [] {
      var c, d := Visit(o, es[0]).hash, Visit(o, fs[0]).hash;
      ListSensitive(o, es[1..], fs[1..], Ordered(o, h, c), Ordered(o, h', d));
      OrderedInjective(o, h, c, h', d);
      forall i | 0 <= i < |es| ensures Visit(o, es[i]).Ok? && Visit(o, es[i]) == Visit(o, fs[i]) {
        if i > 0 {
          assert es[i] == es[1..][i - 1] && fs[i] == fs[1..][i - 1];
        }
      }
    }
  }

  lemma ArraySensitive(o: Options, es: seq<Value>, fs: seq<Value>, i: nat)
    requires CollisionFree(o.alg) && i < |es| == |fs|
    requires Visit(o, Array(es)).Ok? && Visit(o, Array(es)) == Visit(o, Array(fs))
    ensures Visit(o, es[i]).Ok? && Visit(o, es[i]) == Visit(o, fs[i])
  {
    ListSensitive(o, es, fs, 0, 0);
  }

  lemma SliceSensitive(o: Options, es: seq<Value>, fs: seq<Value>, i: nat)
    requires CollisionFree(o.alg) && i < |es| == |fs| && !o.sets
    requires Visit(o, Slice(es)).Ok? && Visit(o, Slice(es)) == Visit(o, Slice(fs))
    ensures Visit(o, es[i]).Ok? && Visit(o, es[i]) == Visit(o, fs[i])
  {
    var a, b := VisitOrdered(o, es, 0), VisitOrdered(o, fs, 0);
    hide VisitOrdered, CollisionFree, Finish;
    FinishInjective(o, a.hash, b.hash);
    ListSensitive(o, es, fs, 0, 0);
  }

  /** A list is hashed exactly if all its elements are. */
  lemma {:induction false} ListHashed(o: Options, es: seq<Value>, h: Word)
    ensures VisitOrdered(o, es, h).Ok? <==> forall i :: 0 <= i < |es| ==> Visit(o, es[i]).Ok?
    decreases |es|
  {
    hide Visit, Ordered;
    if es != [] && Visit(o, es[0]).Ok? {
      ListHashed(o, es[1..], Ordered(o, h, Visit(o, es[0]).hash));
      assert forall i :: 0 < i < |es| ==> es[i] == es[1..][i - 1];
    }
  }

  /** As a set, a slice with one element has the hash of that element, finished. */
  lemma SetOfOne(o: Options, e: Value)
    requires o.sets && Visit(o, e).Ok?
    ensures Visit(o, Slice([e])) == Ok(Digest(o.alg, LittleEndian(Visit(o, e).hash)))
  {
    var x := Visit(o, e).hash;
    XorWordZero(x);
    hide Digest, XorWord, LittleEndian, Visit;
    assert [e][1..] == [];
    assert VisitSet(o, [e], 0) == VisitSet(o, [], x) == Ok(x);
    SliceOfSet(o, [e]);
  }

  lemma SliceOfSet(o: Options, es: seq<Value>)
    ensures Visit(o, Slice(es)) == Finished(o, if o.sets then VisitSet(o, es, 0) else VisitOrdered(o, es, 0))
    ensures forall ms: seq<Entry> :: Visit(o, Map(ms)) == Finished(o, VisitEntries(o, ms, 0))
  {
    hide VisitSet, VisitOrdered, VisitEntries, Digest;
  }

  lemma XorWordZero(x: Word)
    ensures XorWord(0, x) == x
  {
    XorZero(x);
  }

  // ---- maps ----

  /** Maps with one entry and equal hashes have equal hashes of the keys, and of the values. */
  lemma MapSensitive(o: Options, k: Value, v: Value, k': Value, v': Value)
    requires CollisionFree(o.alg)
    requires Visit(o, Map([Entry(k, v)])).Ok? && Visit(o, Map([Entry(k, v)])) == Visit(o, Map([Entry(k', v')]))
    ensures Visit(o, k).Ok? && Visit(o, k) == Visit(o, k') && Visit(o, v).Ok? && Visit(o, v) == Visit(o, v')
  {
    hide CollisionFree, Finish, Ordered;
    OneEntry(o, Entry(k, v));
    OneEntry(o, Entry(k', v'));
    var e, e' := VisitEntry(o, Entry(k, v)), VisitEntry(o, Entry(k', v'));
    FinishInjective(o, e.hash, e'.hash);
    OrderedInjective(o, Visit(o, k).hash, Visit(o, v).hash, Visit(o, k').hash, Visit(o, v').hash);
  }

  lemma OneEntry(o: Options, e: Entry)
    ensures Visit(o, Map([e]))
            == if VisitEntry(o, e).Ok? then Ok(Finish(o, VisitEntry(o, e).hash)) else VisitEntry(o, e)
  {
    hide VisitEntry, Finish, XorWord, Visit;
    SliceOfSet(o, []);
    assert [e][1..] == [];
    if VisitEntry(o, e).Ok? {
      var x := VisitEntry(o, e).hash;
      XorWordZero(x);
      assert VisitEntries(o, [e], 0) == VisitEntries(o, [], x) == Ok(x);
    }
  }

  // ---- structs ----

  /** Unexported fields, those tagged to be ignored, and with ignoreZero those that are zero, do not count, unless they
      are blank. */
  lemma {:induction false} FieldsThatDoNotCount(o: Options, before: seq<Field>, f: Field, after: seq<Field>, h: Word)
    requires !f.blank && (!f.exported || f.tag == Ignore || (o.ignoreZero && f.isZero))
    ensures VisitFields(o, before + [f] + after, h) == VisitFields(o, before + after, h)
    decreases |before|
  {
    hide VisitField, Finish, XorWord;
    if before == [] {
      assert ([f] + after)[1..] == after && [] + [f] + after == [f] + after && [] + after == after;
    } else {
      var b, rest := before[0], before[1..];
      assert (before + [f] + after)[1..] == rest + [f] + after && (before + after)[1..] == rest + after;
      FieldsThatDoNotCount(o, rest, f, after, h);
      FieldsThatDoNotCount(o, rest, f, after, Finish(o, h));
      if VisitField(o, b).Ok? {
        FieldsThatDoNotCount(o, rest, f, after, Finish(o, XorWord(h, VisitField(o, b).hash)));
      }
    }
  }

  /** The fields do not lose what came before them. */
  lemma {:induction false} FieldsInjective(o: Options, fs: seq<Field>, h: Word, h': Word)
    requires CollisionFree(o.alg) && VisitFields(o, fs, h).Ok? && VisitFields(o, fs, h) == VisitFields(o, fs, h')
    ensures h == h'
    decreases |fs|
  {
    hide VisitField, Finish, XorWord, CollisionFree;
    if fs != [] {
      var f := fs[0];
      if Skipped(o, f) {
        FieldsInjective(o, fs[1..], h, h');
      } else if f.blank {
        FieldsInjective(o, fs[1..], Finish(o, h), Finish(o, h'));
        FinishInjective(o, h, h');
      } else {
        var c := VisitField(o, f).hash;
        FieldsInjective(o, fs[1..], Finish(o, XorWord(h, c)), Finish(o, XorWord(h', c)));
        FinishInjective(o, XorWord(h, c), XorWord(h', c));
        XorWordCancel(c, h, h');
      }
    }
  }

  lemma XorWordCancel(c: Word, h: Word, h': Word)
    requires XorWord(h, c) == XorWord(h', c)
    ensures h == h'
  {
    XorCommutes(h, c);
    XorCommutes(h', c);
    XorCancel(c, h, h');
  }

  /** What is hashed for a field that counts: what its String method gives, if it is asked for, or its value. */
  function FieldValue(o: Options, f: Field): Result {
    if (f.tag == AsString || o.stringer) && f.stringer.Some? then Ok(Digest(o.alg, f.stringer.value))
    else if f.tag == AsString then Err(NotStringer(f.name))
    else Visit(o, f.value)
  }

  /** Structs that differ in one field that counts have equal hashes only if what is hashed for the field, and its
      name, have equal hashes; a failure of the field is one of the struct. */
  lemma {:induction false} FieldSensitive(o: Options, fs: seq<Field>, g: Field, i: nat, h: Word)
    requires CollisionFree(o.alg) && i < |fs|
    requires forall f :: f == fs[i] || f == g ==>
               !f.blank && f.exported && f.tag != Ignore && !(o.ignoreZero && f.isZero)
    requires VisitFields(o, fs, h).Ok? && VisitFields(o, fs, h) == VisitFields(o, fs[i := g], h)
    ensures FieldValue(o, fs[i]).Ok? && FieldValue(o, fs[i]) == FieldValue(o, g)
    ensures Digest(o.alg, fs[i].name) == Digest(o.alg, g.name)
    decreases i
  {
    var f := fs[0];
    if i == 0 {
      FirstFieldSensitive(o, fs, g, h);
    } else {
      hide VisitField, Finish, XorWord, CollisionFree, FieldValue, Digest;
      assert fs[i := g][1..] == fs[1..][i - 1 := g] && fs[1..][i - 1] == fs[i];
      FieldSensitive(o, fs[1..], g, i - 1,
                     if Skipped(o, f) then h
                     else if f.blank then Finish(o, h)
                     else Finish(o, XorWord(h, VisitField(o, f).hash)));
    }
  }

  lemma FirstFieldSensitive(o: Options, fs: seq<Field>, g: Field, h: Word)
    requires CollisionFree(o.alg) && fs != []
    requires forall f :: f == fs[0] || f == g ==>
               !f.blank && f.exported && f.tag != Ignore && !(o.ignoreZero && f.isZero)
    requires VisitFields(o, fs, h).Ok? && VisitFields(o, fs, h) == VisitFields(o, fs[0 := g], h)
    ensures FieldValue(o, fs[0]).Ok? && FieldValue(o, fs[0]) == FieldValue(o, g)
    ensures Digest(o.alg, fs[0].name) == Digest(o.alg, g.name)
  {
    hide Visit, Digest, Finish, XorWord, CollisionFree, Ordered;
    var f := fs[0];
    assert !Skipped(o, f) && !Skipped(o, g);
    assert fs[0 := g][1..] == fs[1..];
    var c, d := VisitField(o, f).hash, VisitField(o, g).hash;
    FieldsInjective(o, fs[1..], Finish(o, XorWord(h, c)), Finish(o, XorWord(h, d)));
    FinishInjective(o, XorWord(h, c), XorWord(h, d));
    XorWordCancelRight(h, c, d);
    OrderedInjective(o, Digest(o.alg, f.name), FieldValue(o, f).hash, Digest(o.alg, g.name), FieldValue(o, g).hash);
  }

  lemma XorWordCancelRight(h: Word, c: Word, d: Word)
    requires XorWord(h, c) == XorWord(h, d)
    ensures c == d
  {
    XorCancel(h, c, d);
  }

  /** The same for whole structs; and structs without fields that count have the digest of their name. */
  lemma StructSensitive(o: Options, name: Bytes, fs: seq<Field>, g: Field, i: nat)
    requires CollisionFree(o.alg) && i < |fs|
    requires forall f :: f == fs[i] || f == g ==>
               !f.blank && f.exported && f.tag != Ignore && !(o.ignoreZero && f.isZero)
    requires Visit(o, Struct(name, fs)).Ok? && Visit(o, Struct(name, fs)) == Visit(o, Struct(name, fs[i := g]))
    ensures FieldValue(o, fs[i]).Ok? && FieldValue(o, fs[i]) == FieldValue(o, g)
    ensures Digest(o.alg, fs[i].name) == Digest(o.alg, g.name)
    ensures Visit(o, Struct(name, [])) == Ok(Digest(o.alg, name))
  {
    StructFields(o, name, fs);
    StructFields(o, name, fs[i := g]);
    StructFields(o, name, []);
    assert VisitFields(o, [], Digest(o.alg, name)) == Ok(Digest(o.alg, name));
    hide FieldValue, VisitField, VisitFields, CollisionFree, Visit, Digest;
    FieldSensitive(o, fs, g, i, Digest(o.alg, name));
  }

  lemma StructFields(o: Options, name: Bytes, fs: seq<Field>)
    ensures Visit(o, Struct(name, fs)) == VisitFields(o, fs, Digest(o.alg, name))
  {
    hide VisitFields, Digest;
  }

  // ---- what is hashed, written out ----

  lemma OrderedStep(o: Options, e: Value, es: seq<Value>, h: Word)
    requires Visit(o, e).Ok?
    ensures VisitOrdered(o, [], h) == VisitSet(o, [], h) == Ok(h)
    ensures VisitOrdered(o, [e] + es, h)
            == VisitOrdered(o, es, Digest(o.alg, LittleEndian(h) + LittleEndian(Visit(o, e).hash)))
    ensures VisitSet(o, [e] + es, h) == VisitSet(o, es, XorWord(h, Visit(o, e).hash))
  {
    hide Digest, LittleEndian, Visit, XorWord;
    assert ([e] + es)[1..] == es;
  }

  /** Arrays start from zero, take in one element after the other, and are not finished. */
  lemma ArrayHash(o: Options, e: Value, f: Value)
    requires Visit(o, e).Ok? && Visit(o, f).Ok?
    ensures Visit(o, Array([])) == Ok(0)
    ensures var first := Digest(o.alg, LittleEndian(0) + LittleEndian(Visit(o, e).hash));
            && Visit(o, Array([e])) == Ok(first)
            && Visit(o, Array([e, f])) == Ok(Digest(o.alg, LittleEndian(first) + LittleEndian(Visit(o, f).hash)))
  {
    ArrayIs(o, []);
    ArrayIs(o, [e]);
    ArrayIs(o, [e, f]);
    hide Digest, LittleEndian, Visit, VisitOrdered;
    var first := Digest(o.alg, LittleEndian(0) + LittleEndian(Visit(o, e).hash));
    OrderedStep(o, e, [], 0);
    OrderedStep(o, e, [f], 0);
    OrderedStep(o, f, [], first);
    OrderedStep(o, f, [], Digest(o.alg, LittleEndian(first) + LittleEndian(Visit(o, f).hash)));
    assert [e] + [] == [e] && [f] + [] == [f] && [e] + [f] == [e, f];
  }

  lemma ArrayIs(o: Options, es: seq<Value>)
    ensures Visit(o, Array(es)) == VisitOrdered(o, es, 0)
  {
    hide VisitOrdered;
  }

  /** Slices are finished; as sets their elements are combined without order. */
  lemma SliceHash(o: Options, e: Value, f: Value)
    requires Visit(o, e).Ok? && Visit(o, f).Ok?
    ensures Visit(o, Slice([])) == Ok(Digest(o.alg, LittleEndian(0)))
    ensures !o.sets && Visit(o, Array([e, f])).Ok? ==>
              Visit(o, Slice([e, f])) == Ok(Digest(o.alg, LittleEndian(Visit(o, Array([e, f])).hash)))
    ensures o.sets ==>
              Visit(o, Slice([e, f])) == Ok(Digest(o.alg, LittleEndian(XorWord(Visit(o, e).hash, Visit(o, f).hash))))
  {
    var x := Visit(o, e).hash;
    XorWordZero(x);
    hide Digest, LittleEndian, Visit, XorWord, VisitOrdered, VisitSet;
    assert [f] + [] == [f] && [e] + [f] == [e, f];
    SliceOfSet(o, []);
    SliceOfSet(o, [e, f]);
    OrderedStep(o, e, [], 0);
    if o.sets {
      OrderedStep(o, e, [f], 0);
      OrderedStep(o, f, [], x);
      OrderedStep(o, f, [], XorWord(x, Visit(o, f).hash));
    } else {
      ArrayIs(o, [e, f]);
    }
  }

  lemma EntryStep(o: Options, e: Entry, es: seq<Entry>, h: Word)
    requires Visit(o, e.key).Ok? && Visit(o, e.val).Ok?
    ensures VisitEntries(o, [], h) == Ok(h)
    ensures var x := Digest(o.alg, LittleEndian(Visit(o, e.key).hash) + LittleEndian(Visit(o, e.val).hash));
            VisitEntries(o, [e] + es, h) == VisitEntries(o, es, XorWord(h, x))
  {
    hide Digest, LittleEndian, Visit, XorWord;
    assert ([e] + es)[1..] == es;
  }

  /** Maps combine the hashes of their entries without order, an entry being key and value in that order. */
  lemma MapHash(o: Options, d: Entry, e: Entry)
    requires Visit(o, d.key).Ok? && Visit(o, d.val).Ok? && Visit(o, e.key).Ok? && Visit(o, e.val).Ok?
    ensures Visit(o, Map([])) == Ok(Digest(o.alg, LittleEndian(0)))
    ensures var x := Digest(o.alg, LittleEndian(Visit(o, d.key).hash) + LittleEndian(Visit(o, d.val).hash));
            var y := Digest(o.alg, LittleEndian(Visit(o, e.key).hash) + LittleEndian(Visit(o, e.val).hash));
            Visit(o, Map([d, e])) == Ok(Digest(o.alg, LittleEndian(XorWord(x, y))))
  {
    hide Digest, LittleEndian, Visit, VisitEntries, XorWord;
    var x := Digest(o.alg, LittleEndian(Visit(o, d.key).hash) + LittleEndian(Visit(o, d.val).hash));
    var y := Digest(o.alg, LittleEndian(Visit(o, e.key).hash) + LittleEndian(Visit(o, e.val).hash));
    XorWordZero(x);
    SliceOfSet(o, []);
    EntryStep(o, d, [e], 0);
    EntryStep(o, e, [], x);
    EntryStep(o, e, [], 0);
    EntryStep(o, e, [], XorWord(x, y));
    assert [e] + [] == [e] && [d] + [e] == [d, e];
  }

  /** Structs start from the digest of their name, and are finished after each field. */
  lemma StructHash(o: Options, name: Bytes, f: Field)
    requires !f.blank && f.exported && f.tag != Ignore && !(o.ignoreZero && f.isZero)
    requires f.tag != AsString && !o.stringer && Visit(o, f.value).Ok?
    ensures var x := Digest(o.alg, LittleEndian(Digest(o.alg, f.name)) + LittleEndian(Visit(o, f.value).hash));
            Visit(o, Struct(name, [f])) == Ok(Digest(o.alg, LittleEndian(XorWord(Digest(o.alg, name), x))))
  {
    hide Digest, LittleEndian, Visit, XorWord;
    StructFields(o, name, [f]);
    assert [f][1..] == [];
  }

  /** A blank field only finishes the hash once more. */
  lemma BlankField(o: Options, name: Bytes, f: Field)
    requires f.blank
    ensures Visit(o, Struct(name, [f])) == Ok(Digest(o.alg, LittleEndian(Digest(o.alg, name))))
  {
    hide Digest, LittleEndian, Visit;
    StructFields(o, name, [f]);
    assert [f][1..] == [];
  }

  /** A map is hashed exactly if all its keys and values are. */
  lemma {:induction false} MapHashed(o: Options, es: seq<Entry>, h: Word)
    ensures VisitEntries(o, es, h).Ok? <==>
            forall i :: 0 <= i < |es| ==> Visit(o, es[i].key).Ok? && Visit(o, es[i].val).Ok?
    decreases |es|
  {
    hide Visit, Ordered, XorWord;
    if es != [] && VisitEntry(o, es[0]).Ok? {
      MapHashed(o, es[1..], XorWord(h, VisitEntry(o, es[0]).hash));
      assert forall i :: 0 < i < |es| ==> es[i] == es[1..][i - 1];
    }
  }
}
