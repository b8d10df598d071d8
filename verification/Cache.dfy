/** The in-memory cache with lazy expiry (app/cache.py), against a timed log of what was
    written to it. Times are readings of one monotonic clock. */
module Cache {
  import opened Wrappers

  datatype Write<V> = Put(key: string, value: V, at: int, ttl: int) | Drop(key: string)

  /** What the log says about a key at a time: the last write to it, if it is a Put that has
      not reached the end of its lifetime. */
  function Answer<V>(log: seq<Write<V>>, key: string, now: int): Option<V> {
    if log == [] then None
    else
      var last := log[|log| - 1];
      if last.key != key then Answer(log[..|log| - 1], key, now)
      else if last.Put? && now < last.at + last.ttl then Some(last.value) else None
  }

  /** Position i holds the last write to the key. */
  predicate LastWrite<V>(log: seq<Write<V>>, key: string, i: int) {
    0 <= i < |log| && log[i].key == key && forall j :: i < j < |log| ==> log[j].key != key
  }

  /** The answer is the last value set, unless deleted since or past its lifetime. */
  lemma {:induction false} AnswerIsLastWrite<V>(log: seq<Write<V>>, key: string, now: int)
    ensures Answer(log, key, now).Some? <==>
              exists i :: LastWrite(log, key, i) && log[i].Put? && now < log[i].at + log[i].ttl
    ensures forall i :: LastWrite(log, key, i) && Answer(log, key, now).Some? ==>
              log[i].Put? && Answer(log, key, now) == Some(log[i].value)
  {
    if log == [] {
    } else {
      var init, n := log[..|log| - 1], |log| - 1;
      AnswerIsLastWrite(init, key, now);
      assert log[n].key == key ==> LastWrite(log, key, n);
      forall i ensures log[n].key != key ==> (LastWrite(log, key, i) <==> LastWrite(init, key, i)) {
      }
    }
  }

  /** A dictionary read at a time, with entries that have run out counted as absent. */
  function Lookup<V>(store: map<string, (V, int)>, key: string, now: int): Option<V> {
    if key in store && now < store[key].1 then Some(store[key].0) else None
  }

  /** Under a monotonic clock, dropping an entry that has run out changes no later lookup. */
  lemma EvictionIsInvisible<V>(store: map<string, (V, int)>, evicted: string, now: int)
    requires evicted in store && store[evicted].1 <= now
    ensures forall key, later :: later >= now ==>
              Lookup(store - {evicted}, key, later) == Lookup(store, key, later)
  {
  }

  class InMemoryCache<V> {
    var store: map<string, (V, int)>
    ghost var log: seq<Write<V>>
    ghost var clock: int

    /** From now on the dictionary answers as the log does. */
    ghost predicate Valid()
      reads this
    {
      forall key, now :: now >= clock ==> Lookup(store, key, now) == Answer(log, key, now)
    }

    constructor ()
      ensures Valid() && log == []
    {
      store, log := map[], [];
    }

    /** get_json: the log's answer; evicting on the way is not visible in the log. */
    method Get(key: string, now: int) returns (r: Option<V>)
      requires Valid() && now >= clock
      modifies this
      ensures Valid() && log == old(log) && clock == now
      ensures r == Answer(log, key, now)
    {
      clock := now;
      assert Lookup(store, key, now) == Answer(log, key, now);
      if key !in store {
        return None;
      }
      var (value, expiresAt) := store[key];
      if expiresAt <= now {
        EvictionIsInvisible(store, key, now);
        store := store - {key};
        return None;
      }
      return Some(value);
    }

    /** set_json */
    method Set(key: string, value: V, ttl: int, now: int)
      requires Valid() && now >= clock
      modifies this
      ensures Valid() && log == old(log) + [Put(key, value, now, ttl)] && clock == now
    {
      store := store[key := (value, now + ttl)];
      log, clock := log + [Put(key, value, now, ttl)], now;
      assert log[..|log| - 1] == old(log);
    }

    /** delete */
    method Delete(key: string, now: int)
      requires Valid() && now >= clock
      modifies this
      ensures Valid() && log == old(log) + [Drop(key)] && clock == now
    {
      store := store - {key};
      log, clock := log + [Drop(key)], now;
      assert log[..|log| - 1] == old(log);
    }
  }
}
