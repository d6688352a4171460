/**
  The generic TTL cache of src/core/cache/cache.go, run by one caller at a time. Module
  ConcurrentCache has the same operations split at their lock regions.
*/
module TtlCache {
  import opened Common

  /** time.Now(): a clock that never runs backwards. */
  class Clock {
    var now: int

    constructor () { now := 0; }

    method Now() returns (t: int)
      modifies this
      ensures old(now) <= now == t
    {
      t := *;
      if t < now {
        t := now;
      }
      now := t;
    }
  }

  datatype Item<+T> = Item(Value: T, Expiration: int)

  datatype Lookup<+T> = Hit(value: T) | Miss

  class Cache<T> {
    var data: map<string, Item<T>>
    const ttl: int
    const clock: Clock

    // The last write of every key that has not been deleted since, whether or not it was evicted.
    ghost var written: map<string, Item<T>>

    /** Evicted entries are exactly writes that had expired; what is stored is the last write. */
    ghost predicate Valid()
      reads this, clock
    {
      && (forall k | k in data :: k in written && data[k] == written[k])
      && (forall k | k in written && k !in data :: written[k].Expiration < clock.now)
    }

    /** The key was written, not deleted since, and its time has not passed. */
    ghost predicate Live(key: string)
      reads this, clock
    {
      key in written && clock.now <= written[key].Expiration
    }

    constructor (ttl: int, clock: Clock)
      ensures Valid() && data == map[] && written == map[] && this.ttl == ttl && this.clock == clock
    {
      this.ttl, this.clock := ttl, clock;
      data, written := map[], map[];
    }

    /**
      A hit is the last un-deleted write of the key, not expired when it was checked; a miss means there
      was none, or that its time had passed, and then nothing is stored for it. Evictions in between make no
      difference.
    */
    method Get(key: string) returns (r: Lookup<T>)
      requires Valid()
      modifies this, clock
      ensures Valid() && written == old(written) && old(clock.now) <= clock.now
      ensures data == if r.Hit? then old(data) else old(data) - {key}
      ensures r.Hit? <==> key in written && clock.now <= written[key].Expiration
      ensures r.Hit? ==> r.value == written[key].Value
    {
      if key !in data {
        return Miss;
      }
      var item := data[key];
      var t := clock.Now();
      if t > item.Expiration {
        t := clock.Now();
        if t > data[key].Expiration {
          data := data - {key};
        }
        return Miss;
      }
      r := Hit(item.Value);
    }

    method SetWithTTL(key: string, value: T, ttl: int)
      requires Valid()
      modifies this, clock
      ensures Valid() && old(clock.now) <= clock.now
      ensures data == old(data)[key := Item(value, clock.now + ttl)]
      ensures written == old(written)[key := Item(value, clock.now + ttl)]
    {
      var t := clock.Now();
      data := data[key := Item(value, t + ttl)];
      written := written[key := Item(value, t + ttl)];
    }

    method Set(key: string, value: T)
      requires Valid()
      modifies this, clock
      ensures Valid() && old(clock.now) <= clock.now
      ensures data == old(data)[key := Item(value, clock.now + ttl)]
      ensures written == old(written)[key := Item(value, clock.now + ttl)]
    {
      SetWithTTL(key, value, ttl);
    }

    method Delete(key: string)
      requires Valid()
      modifies this
      ensures Valid() && data == old(data) - {key} && written == old(written) - {key}
    {
      data, written := data - {key}, written - {key};
    }

    method Clear()
      requires Valid()
      modifies this
      ensures Valid() && data == map[] && written == map[]
    {
      data, written := map[], map[];
    }

    /** Removes exactly the entries expired when the call started; no live write is lost. */
    method EvictExpired()
      requires Valid()
      modifies this, clock
      ensures Valid() && written == old(written) && old(clock.now) <= clock.now
      ensures data == map k | k in old(data) && clock.now <= old(data)[k].Expiration :: old(data)[k]
    {
      var now := clock.Now();
      var expiredKeys := ExpiredKeys(now);
      if |expiredKeys| == 0 {
        return;
      }
      DropExpired(expiredKeys, now);
    }

    /** The first region: collects the keys, in whatever order the map is walked. */
    method ExpiredKeys(now: int) returns (expiredKeys: seq<string>)
      ensures forall k :: k in expiredKeys <==> k in data && data[k].Expiration < now
    {
      expiredKeys := [];
      var rest := data.Keys;
      while rest != {}
        invariant rest <= data.Keys
        invariant forall k :: k in expiredKeys <==> k in data && k !in rest && data[k].Expiration < now
        decreases rest
      {
        var k := PickAny(rest);
        if now > data[k].Expiration {
          expiredKeys := expiredKeys + [k];
        }
        rest := rest - {k};
      }
    }

    /** The second region: deletes those that are still there and still expired. */
    method DropExpired(keys: seq<string>, now: int)
      modifies this`data
      ensures data == map k | k in old(data) && !(k in keys && now > old(data)[k].Expiration) :: old(data)[k]
    {
      for i := 0 to |keys|
        invariant data == map k | k in old(data) && !(k in keys[..i] && now > old(data)[k].Expiration) :: old(data)[k]
      {
        var key := keys[i];
        if key in data && now > data[key].Expiration {
          data := data - {key};
        }
      }
      assert keys[..|keys|] == keys;
    }
  }
}
