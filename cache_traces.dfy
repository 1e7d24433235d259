/** Sequences of cache operations, replayed one after the other on the map of
    entries, and what they imply about a single key over time: a key that is
    gone stays gone until it is stored again, and a fresh entry keeps being
    served, untouched by traffic on other keys, until its TTL has passed. */
module CacheTraces {
  import opened Values
  import opened ExpiringCache

  /** One call into the cache, with the clock reading it sees. */
  datatype Op =
    | Get(key: string, now: int)
    | Set(key: string, data: Json, now: int)

  /** The map after one operation. */
  function Apply(m: Entries, op: Op): Entries
  {
    match op
    case Get(key, now) => AfterLookup(m, key, now)
    case Set(key, data, now) => Store(m, key, data, now)
  }

  /** What one operation returns; a store returns nothing (`None`). */
  function Answer(m: Entries, op: Op): Option<Json>
  {
    match op
    case Get(key, now) => Lookup(m, key, now)
    case Set(_, _, _) => None
  }

  /** The answers of a whole trace, one per operation, in order. */
  function Answers(m: Entries, ops: seq<Op>): (rs: seq<Option<Json>>)
    ensures |rs| == |ops|
    decreases |ops|
  {
    if ops == [] then []
    else [Answer(m, ops[0])] + Answers(Apply(m, ops[0]), ops[1..])
  }

  /** The map after a whole trace. */
  function Final(m: Entries, ops: seq<Op>): Entries
    decreases |ops|
  {
    if ops == [] then m else Final(Apply(m, ops[0]), ops[1..])
  }

  /** No operation of the trace stores under `key`. */
  predicate NoStoreOf(ops: seq<Op>, key: string)
  {
    forall i :: 0 <= i < |ops| ==> !(ops[i].Set? && ops[i].key == key)
  }

  /** A key that is absent stays absent, and every lookup of it misses, for as
      long as nothing stores under it, whatever else happens meanwhile. */
  lemma {:induction false} AbsentStaysAbsent(m: Entries, ops: seq<Op>, key: string)
    requires key !in m
    requires NoStoreOf(ops, key)
    ensures key !in Final(m, ops)
    ensures forall i :: 0 <= i < |ops| && ops[i].key == key ==> Answers(m, ops)[i] == None
    decreases |ops|
  {
    if ops != [] {
      var m1 := Apply(m, ops[0]);
      assert key !in m1;
      assert NoStoreOf(ops[1..], key) by {
        forall i | 0 <= i < |ops[1..]| ensures !(ops[1..][i].Set? && ops[1..][i].key == key) {
          assert ops[1..][i] == ops[i + 1];
        }
      }
      AbsentStaysAbsent(m1, ops[1..], key);
      var rs := Answers(m, ops);
      forall i | 0 <= i < |ops| && ops[i].key == key ensures rs[i] == None {
        if i > 0 {
          assert rs[i] == Answers(m1, ops[1..])[i - 1];
          assert ops[1..][i - 1] == ops[i];
        }
      }
    }
  }

  /** A key never stored since the cache was created is a miss on every lookup. */
  lemma NeverStoredIsMiss(ops: seq<Op>, key: string)
    requires NoStoreOf(ops, key)
    ensures forall i :: 0 <= i < |ops| && ops[i].key == key ==> Answers(map[], ops)[i] == None
  {
    AbsentStaysAbsent(map[], ops, key);
  }

  /** Expiry is sticky: once a lookup has found the entry stale (and deleted
      it), every later lookup of the key misses until it is stored again. */
  lemma ExpiryIsSticky(m: Entries, key: string, now: int, ops: seq<Op>)
    requires key in m && IsExpired(now, m[key].timestamp)
    requires NoStoreOf(ops, key)
    ensures Answer(m, Get(key, now)) == None
    ensures forall i :: 0 <= i < |ops| && ops[i].key == key ==> Answers(Apply(m, Get(key, now)), ops)[i] == None
    ensures key !in Final(Apply(m, Get(key, now)), ops)
  {
    AbsentStaysAbsent(Apply(m, Get(key, now)), ops, key);
  }

  /** The key's entry is stale at `t0` or there is none. */
  predicate Stale(m: Entries, key: string, t0: int)
  {
    key !in m || IsExpired(t0, m[key].timestamp)
  }

  /** Every operation of the trace happens at `t0` or later. */
  predicate NotBefore(ops: seq<Op>, t0: int)
  {
    forall i :: 0 <= i < |ops| ==> t0 <= ops[i].now
  }

  /** An entry that is stale at `t0` is never served again at any later time,
      whether or not a lookup has deleted it, until the key is stored again:
      staleness depends on the clock alone, not on being read. */
  lemma {:induction false} StaleStaysStale(m: Entries, ops: seq<Op>, key: string, t0: int)
    requires Stale(m, key, t0)
    requires NotBefore(ops, t0)
    requires NoStoreOf(ops, key)
    ensures Stale(Final(m, ops), key, t0)
    ensures forall i :: 0 <= i < |ops| && ops[i].key == key ==> Answers(m, ops)[i] == None
    decreases |ops|
  {
    if ops != [] {
      var m1 := Apply(m, ops[0]);
      assert Stale(m1, key, t0);
      assert NoStoreOf(ops[1..], key) && NotBefore(ops[1..], t0) by {
        forall i | 0 <= i < |ops[1..]| ensures ops[1..][i] == ops[i + 1] { }
      }
      StaleStaysStale(m1, ops[1..], key, t0);
      var rs := Answers(m, ops);
      forall i | 0 <= i < |ops| && ops[i].key == key ensures rs[i] == None {
        if i > 0 {
          assert rs[i] == Answers(m1, ops[1..])[i - 1];
          assert ops[1..][i - 1] == ops[i];
        }
      }
    }
  }

  /** Every operation of the trace sees the entry stamped `timestamp` as fresh. */
  predicate WithinTtl(ops: seq<Op>, timestamp: int)
  {
    forall i :: 0 <= i < |ops| ==> !IsExpired(ops[i].now, timestamp)
  }

  /** A fresh entry survives any trace that does not store under its key and
      runs within its TTL: every lookup of the key returns its data, and the
      entry is still there, unchanged, at the end. Lookups of other keys may
      delete their own stale entries but never touch this one. */
  lemma {:induction false} FreshEntrySurvives(m: Entries, ops: seq<Op>, key: string)
    requires key in m
    requires NoStoreOf(ops, key)
    requires WithinTtl(ops, m[key].timestamp)
    ensures key in Final(m, ops) && Final(m, ops)[key] == m[key]
    ensures forall i :: 0 <= i < |ops| && ops[i].key == key ==> Answers(m, ops)[i] == Some(m[key].data)
    decreases |ops|
  {
    if ops != [] {
      var m1 := Apply(m, ops[0]);
      assert key in m1 && m1[key] == m[key];
      assert NoStoreOf(ops[1..], key) && WithinTtl(ops[1..], m[key].timestamp) by {
        forall i | 0 <= i < |ops[1..]| ensures ops[1..][i] == ops[i + 1] { }
      }
      FreshEntrySurvives(m1, ops[1..], key);
      var rs := Answers(m, ops);
      forall i | 0 <= i < |ops| && ops[i].key == key ensures rs[i] == Some(m[key].data) {
        if i > 0 {
          assert rs[i] == Answers(m1, ops[1..])[i - 1];
          assert ops[1..][i - 1] == ops[i];
        }
      }
    }
  }

  /** Round trip across a trace: after storing `data` under `key` at `t`, every
      lookup of the key within the TTL returns `data`, as long as nothing else
      is stored under that key. */
  lemma StoredDataIsServedWithinTtl(m: Entries, key: string, data: Json, t: int, ops: seq<Op>)
    requires NoStoreOf(ops, key)
    requires WithinTtl(ops, t)
    ensures forall i :: 0 < i <= |ops| && ops[i - 1].key == key ==>
      Answers(m, [Set(key, data, t)] + ops)[i] == Some(data)
  {
    var trace := [Set(key, data, t)] + ops;
    assert trace[1..] == ops;
    FreshEntrySurvives(Store(m, key, data, t), ops, key);
  }
}
