/** pkg/cache/syncmap.go: a bounded map that makes room by forgetting arbitrary entries. */
module SyncMaps {
  import opened Common

  const EVICTION_PERCENTAGE: int := 5

  datatype Op<V> = Set(key: string, value: V) | Delete(key: string) | Get(key: string)

  /** How many entries go when a new key arrives at capacity. */
  function ToEvict(n: nat): nat { Max(1, n * EVICTION_PERCENTAGE / 100) }

  /** Five of every hundred, rounded down, and at least one. */
  lemma EvictsOneInTwenty(n: nat)
    ensures n < 40 ==> ToEvict(n) == 1
    ensures n >= 20 ==> 20 * ToEvict(n) <= n < 20 * ToEvict(n) + 20
  {
  }

  /** What one operation may do to the entries. Only setting a new key at capacity is not determined:
      exactly `ToEvict` of the old entries go, and the rest keep their values. */
  ghost predicate Effect<V(!new)>(capacity: nat, m: map<string, V>, op: Op<V>, m': map<string, V>) {
    match op
    case Get(_) => m' == m
    case Delete(k) => m' == m - {k}
    case Set(k, v) =>
      if k in m || |m| < capacity then m' == m[k := v]
      else
        && k in m' && m'[k] == v
        && |m'| == |m| - ToEvict(|m|) + 1
        && forall j :: j in m' && j != k ==> j in m && m'[j] == m[j]
  }

  /** The same operation on a map that never forgets. */
  function Unbounded<V>(m: map<string, V>, op: Op<V>): map<string, V> {
    match op
    case Get(_) => m
    case Delete(k) => m - {k}
    case Set(k, v) => m[k := v]
  }

  function UnboundedAfter<V>(ops: seq<Op<V>>): map<string, V> {
    if ops == [] then map[] else Unbounded(UnboundedAfter(ops[..|ops| - 1]), ops[|ops| - 1])
  }

  ghost predicate Within<V(!new)>(m: map<string, V>, whole: map<string, V>) {
    forall k :: k in m ==> k in whole && m[k] == whole[k]
  }

  /** The entries after each operation of a run, from an empty map. */
  ghost predicate History<V(!new)>(capacity: nat, ms: seq<map<string, V>>, ops: seq<Op<V>>) {
    && |ms| == |ops| + 1 && ms[0] == map[]
    && forall n :: 0 <= n < |ops| ==> Effect(capacity, ms[n], ops[n], ms[n + 1])
  }

  lemma EffectBounded<V(!new)>(capacity: nat, m: map<string, V>, op: Op<V>, m': map<string, V>)
    requires capacity >= 1 && |m| <= capacity && Effect(capacity, m, op, m')
    ensures |m'| <= capacity
  {
  }

  lemma EffectWithin<V(!new)>(capacity: nat, m: map<string, V>, op: Op<V>, m': map<string, V>, whole: map<string, V>)
    requires Within(m, whole) && Effect(capacity, m, op, m')
    ensures Within(m', Unbounded(whole, op))
    ensures op.Set? ==> op.key in m' && m'[op.key] == op.value
  {
  }

  lemma {:induction false} Subset<T>(a: set<T>, b: set<T>)
    requires a <= b
    ensures |a| <= |b|
    decreases b
  {
    if x :| x in b {
      Subset(a - {x}, b - {x});
    }
  }

  /** On every run, every entry is the one an unbounded map would have, the capacity is never
      exceeded, and what was just set is there. */
  lemma {:induction false} HistoryRefines<V(!new)>(capacity: nat, ms: seq<map<string, V>>, ops: seq<Op<V>>, n: nat)
    requires capacity >= 1 && History(capacity, ms, ops) && n <= |ops|
    ensures |ms[n]| <= capacity && Within(ms[n], UnboundedAfter(ops[..n]))
    ensures n > 0 && ops[n - 1].Set? ==> ops[n - 1].key in ms[n] && ms[n][ops[n - 1].key] == ops[n - 1].value
  {
    if n > 0 {
      HistoryRefines(capacity, ms, ops, n - 1);
      assert ops[..n][..n - 1] == ops[..n - 1] && ops[..n][n - 1] == ops[n - 1];
      EffectBounded(capacity, ms[n - 1], ops[n - 1], ms[n]);
      EffectWithin(capacity, ms[n - 1], ops[n - 1], ms[n], UnboundedAfter(ops[..n - 1]));
    }
  }

  /** What a map answers. */
  function Answer<V>(m: map<string, V>, k: string): Option<V> { if k in m then Some(m[k]) else None }

  /** On every run, the answer to a key at any moment is none, or the one an unbounded map would give;
      and right after the key was set, it is what it was set to. */
  lemma AnswersAgree<V(!new)>(capacity: nat, ms: seq<map<string, V>>, ops: seq<Op<V>>, n: nat, k: string)
    requires capacity >= 1 && History(capacity, ms, ops) && n <= |ops|
    ensures Answer(ms[n], k) == None || Answer(ms[n], k) == Answer(UnboundedAfter(ops[..n]), k)
    ensures n > 0 && ops[n - 1].Set? && ops[n - 1].key == k ==> Answer(ms[n], k) == Some(ops[n - 1].value)
  {
    HistoryRefines(capacity, ms, ops, n);
  }

  class SyncMap<V(!new)> {
    var entries: map<string, V>
    const capacity: nat

    ghost predicate Valid()
      reads this
    {
      capacity >= 1 && |entries| <= capacity
    }

    constructor (maxEntries: int)
      ensures Valid() && entries == map[]
      ensures capacity == if maxEntries <= 0 then 1 else maxEntries
    {
      capacity := if maxEntries <= 0 then 1 else maxEntries;
      entries := map[];
    }

    method Get(key: string) returns (entry: Option<V>)
      ensures entry == Answer(entries, key)
    {
      entry := if key in entries then Some(entries[key]) else None;
    }

    method Set(key: string, entry: V)
      requires Valid()
      modifies this
      ensures Valid() && Effect(capacity, old(entries), Op.Set(key, entry), entries)
    {
      if key !in entries {
        var numEntries := |entries|;
        if numEntries >= capacity {
          var numToEvict := numEntries * EVICTION_PERCENTAGE / 100;
          if numToEvict <= 1 {
            numToEvict := 1;
          }
          var numEvicted := 0;
          while entries != map[]
            invariant numEvicted < numToEvict <= numEntries
            invariant |entries| == numEntries - numEvicted
            invariant Within(entries, old(entries))
            decreases |entries|
          {
            var k :| k in entries;
            assert entries.Keys - {k} == (entries - {k}).Keys;
            entries := entries - {k};
            numEvicted := numEvicted + 1;
            if numEvicted >= numToEvict {
              break;
            }
          }
          assert |entries| == numEntries - numToEvict;
        }
      }
      assert key !in entries ==> entries[key := entry].Keys == entries.Keys + {key};
      assert key in entries ==> entries[key := entry].Keys == entries.Keys;
      entries := entries[key := entry];
    }

    method Delete(key: string)
      requires Valid()
      modifies this
      ensures Valid() && Effect(capacity, old(entries), Op.Delete(key), entries)
    {
      assert (entries - {key}).Keys == entries.Keys - {key};
      Subset((entries - {key}).Keys, entries.Keys);
      entries := entries - {key};
    }
  }
}
