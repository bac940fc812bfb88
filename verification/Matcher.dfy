/**
  The waiter table both correlation layers keep under one lock: `_pending`/`_waiters` maps an id to its
  event (modelled by whether it is set), `_results` maps an id to the answer stored for it.
 */
module Matcher {
  import opened Common

  datatype Table<K(==), V> = Table(pending: map<K, bool>, results: map<K, V>)

  function Register<K(==), V>(t: Table<K, V>, k: K): Table<K, V> {
    t.(pending := t.pending[k := false])
  }

  /** Only a registered waiter's answer is kept. */
  function Complete<K(==), V>(t: Table<K, V>, k: K, v: V): Table<K, V> {
    if k in t.pending then Table(t.pending[k := true], t.results[k := v]) else t
  }

  function Take<K(==), V>(t: Table<K, V>, k: K): Table<K, V> {
    Table(t.pending - {k}, t.results - {k})
  }

  /** Every waiter is woken; one that has no answer yet gets `absent`. */
  function WakeAll<K(==), V>(t: Table<K, V>, absent: V): Table<K, V> {
    Table(map k | k in t.pending :: true, (map k | k in t.pending :: absent) + t.results)
  }

  /** `WakeAll` part-way: the waiters in `todo` have not been woken yet. */
  function WakeSome<K(==), V>(t: Table<K, V>, todo: set<K>, absent: V): Table<K, V> {
    Table(map k | k in t.pending :: k !in todo || t.pending[k],
          (map k | k in t.pending && k !in todo :: absent) + t.results)
  }

  function Wake<K(==), V>(t: Table<K, V>, k: K, absent: V): Table<K, V> {
    Table(t.pending[k := true], if k in t.results then t.results else t.results[k := absent])
  }

  lemma WakeOne<K, V>(t: Table<K, V>, todo: set<K>, k: K, absent: V)
    requires k in t.pending && k in todo
    ensures WakeSome(t, todo - {k}, absent) == Wake(WakeSome(t, todo, absent), k, absent)
  {
  }

  lemma WakeBounds<K, V>(t: Table<K, V>, absent: V)
    ensures WakeSome(t, t.pending.Keys, absent) == t && WakeSome(t, {}, absent) == WakeAll(t, absent)
  {
  }

  /** What a table holds for one id: is anyone waiting, is the event set, which answer is stored. */
  datatype Entry<V> = Entry(waits: bool, woken: bool, answer: Option<V>)

  ghost function Lookup<K, V>(t: Table<K, V>, k: K): Entry<V> {
    Entry(k in t.pending, k in t.pending && t.pending[k], if k in t.results then Some(t.results[k]) else None)
  }

  /** Each table operation seen from one id. */
  lemma LookupAfter<K, V>(t: Table<K, V>, k: K, v: V, j: K)
    ensures var was := Lookup(t, j);
            && Lookup(Register(t, k), j) == (if j == k then was.(waits := true, woken := false) else was)
            && Lookup(Complete(t, k, v), j) == (if j == k && was.waits then Entry(true, true, Some(v)) else was)
            && Lookup(Take(t, k), j) == (if j == k then Entry(false, false, None) else was)
            && Lookup(WakeAll(t, v), j) ==
               if was.waits && was.answer.None? then Entry(true, true, Some(v))
               else was.(woken := was.waits)
  {
  }

  /** An event is set exactly when an answer waits behind it, and no answer waits behind nothing. */
  ghost predicate Coherent<K(!new), V>(t: Table<K, V>) {
    forall k :: k in t.results <==> k in t.pending && t.pending[k]
  }
}
