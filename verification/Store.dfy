/** The in-memory store with a time to live: rows that a sweep deletes once they have not been used for
    long enough. Times and durations are in nanoseconds. */
module Store {
  import opened Wrappers

  const SECOND: int := 1_000_000_000

  /** The zero time; a row whose time is zero is never swept. */
  const ZERO_TIME: int := 0

  datatype Row<+V> = Row(value: V, usedAt: int)

  /** The sweep's test on a row. `dataTTL` is a number of seconds. */
  predicate Expired(usedAt: int, dataTTL: int, now: int) {
    usedAt != ZERO_TIME && usedAt < now - SECOND * dataTTL
  }

  function Touch<V>(rows: map<string, Row<V>>, key: string, now: int): map<string, Row<V>> {
    if key in rows then rows[key := rows[key].(usedAt := now)] else rows
  }

  function Swept<V>(rows: map<string, Row<V>>, dataTTL: int, now: int): map<string, Row<V>> {
    map k | k in rows && !Expired(rows[k].usedAt, dataTTL, now) :: rows[k]
  }

  /** The calls that reach the rows, with the clock readings they take. */
  datatype Event<+V> =
    | Put(key: string, value: V, at: int)
    | PutTTL(key: string, value: V, at: int, ttl: int)
    | Get(key: string, at: int)
    | Remove(key: string)
    | Sweep(at: int)

  function Apply<V>(rows: map<string, Row<V>>, e: Event<V>, dataTTL: int): map<string, Row<V>> {
    match e
    case Put(k, v, at) => rows[k := Row(v, at)]
    case PutTTL(k, v, at, ttl) => rows[k := Row(v, at + ttl)]
    case Get(k, at) => Touch(rows, k, at)
    case Remove(k) => rows - {k}
    case Sweep(at) => Swept(rows, dataTTL, at)
  }

  class MemoryDb<V> {
    const dataTTL: int
    var rows: map<string, Row<V>>

    /** Stores minus sweepings: a store over a present key counts, a removal does not. */
    var count: int

    constructor (dataTTL: int)
      ensures this.dataTTL == dataTTL && rows == map[] && count == 0
    {
      this.dataTTL := dataTTL;
      rows, count := map[], 0;
    }

    /** A hit moves the deadline of the row to now, even if it lay in the future. */
    method GetData(key: string, now: int) returns (value: Option<V>)
      modifies this
      ensures value == if key in old(rows) then Some(old(rows)[key].value) else None
      ensures rows == Apply(old(rows), Get(key, now), dataTTL) && count == old(count)
      ensures rows.Keys == old(rows).Keys
      ensures forall k :: k in rows ==> rows[k] == if k == key then Row(old(rows)[k].value, now) else old(rows)[k]
    {
      if key !in rows {
        return None;
      }
      rows := rows[key := rows[key].(usedAt := now)];
      return Some(rows[key].value);
    }

    method SetData(key: string, value: V, now: int)
      modifies this
      ensures rows == Apply(old(rows), Put(key, value, now), dataTTL) && count == old(count) + 1
      ensures rows == old(rows)[key := Row(value, now)]
    {
      rows := rows[key := Row(value, now)];
      count := count + 1;
    }

    method SetDataWithTTL(key: string, value: V, ttl: int, now: int)
      modifies this
      ensures rows == Apply(old(rows), PutTTL(key, value, now, ttl), dataTTL) && count == old(count) + 1
      ensures rows == old(rows)[key := Row(value, now + ttl)]
    {
      rows := rows[key := Row(value, now + ttl)];
      count := count + 1;
    }

    method Delete(key: string)
      modifies this
      ensures rows == Apply(old(rows), Remove(key), dataTTL) && count == old(count)
      ensures rows == old(rows) - {key}
    {
      rows := rows - {key};
    }

    /** The sweep visits the rows one by one, in any order, deleting as it goes. */
    method RemoveOldData(now: int)
      modifies this
      ensures rows == Apply(old(rows), Sweep(now), dataTTL)
      // A row stays exactly if its time is zero or no more than dataTTL seconds ago.
      ensures forall k :: k in rows <==>
                            k in old(rows) &&
                            (old(rows)[k].usedAt == 0 || now <= old(rows)[k].usedAt + 1_000_000_000 * dataTTL)
      ensures forall k :: k in rows ==> rows[k] == old(rows)[k]
      ensures count == old(count) - (|old(rows)| - |rows|)
    {
      var left := rows.Keys;
      while left != {}
        invariant left <= old(rows).Keys
        invariant rows == map k | k in old(rows) && (k in left || !Expired(old(rows)[k].usedAt, dataTTL, now))
                              :: old(rows)[k]
        invariant count == old(count) - (|old(rows)| - |rows|)
        decreases left
      {
        var k :| k in left;
        if Expired(rows[k].usedAt, dataTTL, now) {
          assert |rows - {k}| == |rows| - 1;
          rows := rows - {k};
          count := count - 1;
        }
        left := left - {k};
      }
    }
  }
}

/** What a whole history of calls leaves in the store, stated without replaying it. */
module StoreHistory {
  import opened Store

  predicate IsStore<V>(e: Event<V>, k: string) {
    (e.Put? || e.PutTTL?) && e.key == k
  }

  function Deadline<V>(e: Event<V>): int
    requires e.Put? || e.PutTTL?
  {
    if e.Put? then e.at else e.at + e.ttl
  }

  function Replay<V>(es: seq<Event<V>>, dataTTL: int): map<string, Row<V>> {
    if es == [] then map[] else Apply(Replay(es[..|es| - 1], dataTTL), es[|es| - 1], dataTTL)
  }

  /** `i` is the last store of `k`. */
  ghost predicate LastStore<V(!new)>(es: seq<Event<V>>, k: string, i: nat) {
    i < |es| && IsStore(es[i], k) && forall j :: i < j < |es| ==> !IsStore(es[j], k)
  }

  /** The deadline of `k` just before event `j`: the time of the last read since the store at `i`, or the
      store's own deadline if there was none. */
  function DeadlineBefore<V>(es: seq<Event<V>>, k: string, i: nat, j: nat): int
    requires i < j <= |es| && IsStore(es[i], k)
  {
    if j == i + 1 then Deadline(es[i])
    else if es[j - 1].Get? && es[j - 1].key == k then es[j - 1].at
    else DeadlineBefore(es, k, i, j - 1)
  }

  /** Event `j` ends the row of `k` that was stored at `i`: a removal, or a sweep more than dataTTL seconds after a
      deadline other than the zero time. */
  predicate Ends<V>(es: seq<Event<V>>, k: string, i: nat, j: nat, dataTTL: int)
    requires i < j < |es| && IsStore(es[i], k)
  {
    || (es[j].Remove? && es[j].key == k)
    || (es[j].Sweep? && DeadlineBefore(es, k, i, j) != 0 &&
        DeadlineBefore(es, k, i, j) + 1_000_000_000 * dataTTL < es[j].at)
  }

  /** `k` was stored at `i`, not stored again, and nothing ended it since. */
  ghost predicate Lives<V(!new)>(es: seq<Event<V>>, k: string, i: nat, dataTTL: int) {
    LastStore(es, k, i) && forall j :: i < j < |es| ==> !Ends(es, k, i, j, dataTTL)
  }

  lemma {:induction false} DeadlineOfPrefix<V>(es: seq<Event<V>>, k: string, i: nat, j: nat)
    requires i < j < |es| && IsStore(es[i], k)
    ensures DeadlineBefore(es[..|es| - 1], k, i, j) == DeadlineBefore(es, k, i, j)
  {
    if j > i + 1 {
      DeadlineOfPrefix(es, k, i, j - 1);
    }
  }

  lemma LivesInPrefix<V(!new)>(es: seq<Event<V>>, k: string, i: nat, dataTTL: int)
    requires es != [] && i < |es| - 1
    ensures Lives(es, k, i, dataTTL) <==>
            && Lives(es[..|es| - 1], k, i, dataTTL)
            && !IsStore(es[|es| - 1], k)
            && !Ends(es, k, i, |es| - 1, dataTTL)
  {
    var pre := es[..|es| - 1];
    if IsStore(es[i], k) {
      forall j | i < j < |pre|
        ensures Ends(pre, k, i, j, dataTTL) == Ends(es, k, i, j, dataTTL)
      {
        DeadlineOfPrefix(es, k, i, j);
      }
      assert forall j :: i < j < |pre| ==> pre[j] == es[j];
    }
  }

  /** A row is present exactly when some store of its key still lives; it then holds that store's value and
      the deadline in force. */
  lemma {:induction false} PresentIffLives<V(!new)>(es: seq<Event<V>>, k: string, dataTTL: int)
    ensures k in Replay(es, dataTTL) <==> exists i: nat :: Lives(es, k, i, dataTTL)
    ensures forall i: nat :: Lives(es, k, i, dataTTL) ==>
              && k in Replay(es, dataTTL)
              && Replay(es, dataTTL)[k] == Row(es[i].value, DeadlineBefore(es, k, i, |es|))
  {
    if es != [] {
      var n := |es| - 1;
      var pre, e := es[..n], es[n];
      PresentIffLives(pre, k, dataTTL);
      if IsStore(e, k) {
        assert Lives(es, k, n, dataTTL);
      } else {
        forall i | 0 <= i < n && IsStore(es[i], k)
          ensures Lives(es, k, i, dataTTL) <==> Lives(pre, k, i, dataTTL) && !Ends(es, k, i, n, dataTTL)
          ensures DeadlineBefore(es, k, i, n) == DeadlineBefore(pre, k, i, n)
        {
          LivesInPrefix(es, k, i, dataTTL);
          DeadlineOfPrefix(es, k, i, n);
        }
      }
    }
  }
}
