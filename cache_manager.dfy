/**
  `CacheManager` (src/Rixian.Extensions.Caching/CacheManager.cs): a two-tier
  cache, an in-process memory cache in front of a distributed cache that holds
  the values' serialized bytes.

  The two cache services are modelled as maps from key to entry; the
  serializer is a pair of functions fixed when the manager is made.
 */
module Caching {
  import opened Wrappers
  import opened Errors
  import opened Exceptions
  import opened Results

  type Bytes = seq<bv8>

  /** The error code of a cache miss. */
  const CacheMissErrorCode: string := "cache.miss"

  /** The error code of a value the distributed cache holds but that cannot be read back. */
  const CacheUnknownValueErrorCode: string := "cache.unknown_value"

  /** The expirations of `EntityCacheOptions`, copied onto each tier's entry options. Times are ticks. */
  datatype Expiration = Expiration(absolute: Option<int>, relativeToNow: Option<int>, sliding: Option<int>)

  /** `options?.X` for each expiration: a null options object gives no expiration at all. */
  function EntryExpiration(options: Option<Expiration>): (x: Expiration)
    ensures options.None? ==> x == Expiration(None, None, None)
    ensures options.Some? ==> x == options.value
  {
    options.GetOr(Expiration(None, None, None))
  }

  /** A cache entry: what is stored and the expirations it was stored with. */
  datatype Entry<X> = Entry(value: X, expiration: Expiration)

  /** The contents of the two tiers. Memory entries hold the value itself, which may be null. */
  datatype Tiers<V> = Tiers(memory: map<string, Entry<Option<V>>>, distributed: map<string, Entry<Bytes>>)

  /**
    How values travel through the distributed tier: UTF-8 JSON bytes and back,
    and the name `typeof(T)` prints in messages. Reading back returns `None` for
    the JSON literal `null`, and throws (a `JsonException` for malformed, empty
    or mismatched bytes) where `JsonSerializer.Deserialize<T>` throws.
   */
  datatype Codec<!V> = Codec(serialize: Option<V> -> Bytes, deserialize: Bytes -> Outcome<Option<V>>, typeName: string)

  /** The calls the manager makes on the two cache services and on the caller's value factory. */
  datatype TierOp =
    | MemoryTryGet(key: string)
    | MemorySet(key: string)
    | MemoryRemove(key: string)
    | DistributedGet(key: string)
    | DistributedSet(key: string)
    | DistributedRemove(key: string)
    | DistributedRefresh(key: string)
    | FactoryInvoked

  /** The error `GetAsync` returns when neither tier holds the key. */
  function MissError(key: string): (e: Error)
    ensures e.code == Some(CacheMissErrorCode) && e.message == Some("Cache miss.") && e.target == Some(key)
    ensures e.innerError.None?
  {
    OfCodeMessageTarget(CacheMissErrorCode, "Cache miss.", key)
  }

  /** The double quote character, which the unknown-value message puts around the key and the type name. */
  const DoubleQuote: char := 34 as char

  /** The text of the unknown-value message. */
  function UnknownValueMessage(key: string, typeName: string): string
  {
    "Unable to deserialize the cache value for key " + [DoubleQuote] + key + [DoubleQuote]
    + " to type " + [DoubleQuote] + typeName + [DoubleQuote] + "."
  }

  /** The error `GetAsync` returns when the distributed bytes do not read back as the type; it has no target. */
  function UnknownValueError(key: string, typeName: string): (e: Error)
    ensures e.code == Some(CacheUnknownValueErrorCode) && e.target.None?
    ensures e.message == Some(UnknownValueMessage(key, typeName))
  {
    OfCodeMessage(CacheUnknownValueErrorCode, UnknownValueMessage(key, typeName))
  }

  /** `result.Error?.Code == CacheMissErrorCode`, read on a failed result. */
  predicate IsMiss<X>(r: Result<X>)
  {
    r.Failure? && r.error.code == Some(CacheMissErrorCode)
  }

  /** A `GetAsync` that returned, and returned a miss. */
  predicate Missed<X>(o: Outcome<Result<X>>)
  {
    o.Returns? && IsMiss(o.value)
  }

  /**
    What `GetAsync` returns or throws: the memory entry if there is one;
    otherwise a miss when the distributed tier has no bytes, the exception when
    reading the bytes back throws, an unknown-value error when they read back
    as null, and the value they read back as otherwise.
   */
  function Lookup<V>(t: Tiers<V>, c: Codec<V>, key: string): (o: Outcome<Result<Option<V>>>)
    ensures key in t.memory ==> o == Returns(Success(t.memory[key].value))
    ensures Missed(o) <==> key !in t.memory && key !in t.distributed
    ensures o.Throws? <==> key !in t.memory && key in t.distributed && c.deserialize(t.distributed[key].value).Throws?
    ensures o.Throws? ==> key in t.distributed && o.exception == c.deserialize(t.distributed[key].value).exception
    ensures o == Returns(Failure(UnknownValueError(key, c.typeName))) <==>
              key !in t.memory && key in t.distributed && c.deserialize(t.distributed[key].value) == Returns(None)
    ensures o.Returns? && o.value.Failure? ==> Missed(o) || o.value.error == UnknownValueError(key, c.typeName)
    ensures o.Returns? && o.value.Success? && key !in t.memory ==>
              key in t.distributed && o.value.value.Some? && c.deserialize(t.distributed[key].value) == Returns(o.value.value)
  {
    if key in t.memory then Returns(Success(t.memory[key].value))
    else if key !in t.distributed then Returns(Failure(MissError(key)))
    else
      var value := c.deserialize(t.distributed[key].value);
      if value.Throws? then Throws(value.exception)
      else if value.value.None? then Returns(Failure(UnknownValueError(key, c.typeName)))
      else Returns(Success(value.value))
  }

  /** The service calls of one `GetAsync`: the distributed cache is asked only after a memory miss. */
  function LookupTrace<V>(t: Tiers<V>, key: string): (ops: seq<TierOp>)
    ensures |ops| > 0 && ops[0] == MemoryTryGet(key)
    ensures DistributedGet(key) in ops <==> key !in t.memory
  {
    if key in t.memory then [MemoryTryGet(key)] else [MemoryTryGet(key), DistributedGet(key)]
  }

  /** The tiers after `SetAsync`: both tiers hold the key with the same expirations, the distributed one as bytes. */
  function Stored<V>(t: Tiers<V>, c: Codec<V>, key: string, value: Option<V>, options: Option<Expiration>): (t': Tiers<V>)
    ensures t'.memory.Keys == t.memory.Keys + {key} && t'.distributed.Keys == t.distributed.Keys + {key}
    ensures t'.memory[key] == Entry(value, EntryExpiration(options))
    ensures t'.distributed[key] == Entry(c.serialize(value), EntryExpiration(options))
    ensures forall k :: k in t.memory && k != key ==> t'.memory[k] == t.memory[k]
    ensures forall k :: k in t.distributed && k != key ==> t'.distributed[k] == t.distributed[k]
  {
    Tiers(t.memory[key := Entry(value, EntryExpiration(options))],
          t.distributed[key := Entry(c.serialize(value), EntryExpiration(options))])
  }

  /** The tiers after `RemoveAsync`: the key is gone from both, nothing else changes. */
  function Removed<V>(t: Tiers<V>, key: string): (t': Tiers<V>)
    ensures t'.memory.Keys == t.memory.Keys - {key} && t'.distributed.Keys == t.distributed.Keys - {key}
    ensures forall k :: k in t'.memory ==> t'.memory[k] == t.memory[k]
    ensures forall k :: k in t'.distributed ==> t'.distributed[k] == t.distributed[k]
  {
    Tiers(t.memory - {key}, t.distributed - {key})
  }

  /** What one `GetOrSetAsync` call does: its outcome, the tiers after it, and the calls it made. */
  datatype Step<V> = Step(outcome: Outcome<Result<Option<V>>>, tiers: Tiers<V>, trace: seq<TierOp>)

  /**
    `GetOrSetAsync` over values: a null factory throws before anything else; a
    throwing lookup throws on; a cached value, or any failure but a miss, is
    returned as it is; after a miss the factory's result is returned, and
    stored first when it is a success with a non-null value. `factory` is the
    result the factory produces.
   */
  function GetOrSetStep<V>(t: Tiers<V>, c: Codec<V>, key: string, options: Expiration,
                           factory: Option<Result<Option<V>>>): (s: Step<V>)
    ensures factory.None? ==> s == Step(Throws(ArgumentNull("getValueAsync")), t, [])
    ensures factory.Some? && !Missed(Lookup(t, c, key)) ==> s == Step(Lookup(t, c, key), t, LookupTrace(t, key))
    ensures (FactoryInvoked in s.trace) <==> factory.Some? && Missed(Lookup(t, c, key))
    ensures factory.Some? && Missed(Lookup(t, c, key)) ==> s.outcome == Returns(factory.value)
    ensures s.tiers != t ==> factory.Some? && factory.value.Success? && factory.value.value.Some?
                             && s.tiers == Stored(t, c, key, factory.value.value, Some(options))
  {
    if factory.None? then Step(Throws(ArgumentNull("getValueAsync")), t, [])
    else
      var got := Lookup(t, c, key);
      var lookupOps := LookupTrace(t, key);
      assert FactoryInvoked !in lookupOps;
      if got.Throws? then Step(got, t, lookupOps)
      else
      var result := got.value;
      if result.Success? || !IsMiss(result) then Step(got, t, lookupOps)
      else
        var newValue := factory.value;
        if newValue.Success? && newValue.value.Some? then
          Step(Returns(newValue), Stored(t, c, key, newValue.value, Some(options)),
               lookupOps + [FactoryInvoked, MemorySet(key), DistributedSet(key)])
        else Step(Returns(newValue), t, lookupOps + [FactoryInvoked])
  }

  /** After `SetAsync`, reading the key gives back the stored value, null included, from memory. */
  lemma SetThenGet<V>(t: Tiers<V>, c: Codec<V>, key: string, value: Option<V>, options: Option<Expiration>)
    ensures Lookup(Stored(t, c, key, value, options), c, key) == Returns(Success(value))
    ensures LookupTrace(Stored(t, c, key, value, options), key) == [MemoryTryGet(key)]
  {
  }

  /** Setting or removing one key leaves what every other key reads unchanged. */
  lemma OtherKeysUnchanged<V>(t: Tiers<V>, c: Codec<V>, key: string, other: string, value: Option<V>, options: Option<Expiration>)
    requires other != key
    ensures Lookup(Stored(t, c, key, value, options), c, other) == Lookup(t, c, other)
    ensures Lookup(Removed(t, key), c, other) == Lookup(t, c, other)
  {
  }

  /** After `RemoveAsync`, reading the key is a miss whose target is the key. */
  lemma RemoveThenMiss<V>(t: Tiers<V>, c: Codec<V>, key: string)
    ensures Lookup(Removed(t, key), c, key) == Returns(Failure(MissError(key)))
    ensures Missed(Lookup(Removed(t, key), c, key))
  {
  }

  /** The memory tier evicted `key` (by expiry or memory pressure), the distributed one kept it. */
  function EvictedFromMemory<V>(t: Tiers<V>, key: string): (t': Tiers<V>)
    ensures key !in t'.memory && t'.distributed == t.distributed
  {
    t.(memory := t.memory - {key})
  }

  /**
    A non-null value whose bytes read back as itself survives losing the memory
    entry: the distributed tier gives the same value back.
   */
  lemma DistributedTierRecoversValue<V>(t: Tiers<V>, c: Codec<V>, key: string, v: V, options: Option<Expiration>)
    requires c.deserialize(c.serialize(Some(v))) == Returns(Some(v))
    ensures Lookup(EvictedFromMemory(Stored(t, c, key, Some(v), options), key), c, key) == Returns(Success(Some(v)))
  {
  }

  /**
    A stored null reads back as a success from memory, but once memory has lost it
    the distributed bytes (JSON `null`) read back as null, which is reported as an
    unknown value, not as a miss, so `GetOrSetAsync` does not recompute it.
   */
  lemma NullIsOnlyRecoverableFromMemory<V>(t: Tiers<V>, c: Codec<V>, key: string, options: Option<Expiration>, factory: Result<Option<V>>)
    requires c.deserialize(c.serialize(None)) == Returns(None)
    ensures Lookup(Stored(t, c, key, None, options), c, key) == Returns(Success(None))
    ensures Lookup(EvictedFromMemory(Stored(t, c, key, None, options), key), c, key)
            == Returns(Failure(UnknownValueError(key, c.typeName)))
    ensures var t' := EvictedFromMemory(Stored(t, c, key, None, options), key);
            FactoryInvoked !in GetOrSetStep(t', c, key, EntryExpiration(options), Some(factory)).trace
  {
    var t' := EvictedFromMemory(Stored(t, c, key, None, options), key);
    assert !Missed(Lookup(t', c, key));
  }

  /** A cached value is returned without calling the factory and without touching the tiers. */
  lemma GetOrSetHit<V>(t: Tiers<V>, c: Codec<V>, key: string, options: Expiration, factory: Result<Option<V>>)
    requires Lookup(t, c, key).Returns? && Lookup(t, c, key).value.Success?
    ensures GetOrSetStep(t, c, key, options, Some(factory)).outcome == Lookup(t, c, key)
    ensures GetOrSetStep(t, c, key, options, Some(factory)).tiers == t
    ensures FactoryInvoked !in GetOrSetStep(t, c, key, options, Some(factory)).trace
  {
  }

  /**
    After a miss, a factory success with a value is returned and cached: reading
    the key then gives it back, and a second `GetOrSetAsync` returns the same
    result without calling the factory again.
   */
  lemma {:induction false} GetOrSetPopulates<V>(t: Tiers<V>, c: Codec<V>, key: string, options: Expiration, v: V, later: Option<Result<Option<V>>>)
    requires key !in t.memory && key !in t.distributed
    requires later.Some?
    ensures var s := GetOrSetStep(t, c, key, options, Some(Success(Some(v))));
            s.outcome == Returns(Success(Some(v)))
            && s.tiers == Stored(t, c, key, Some(v), Some(options))
            && s.trace == LookupTrace(t, key) + [FactoryInvoked, MemorySet(key), DistributedSet(key)]
            && Lookup(s.tiers, c, key) == Returns(Success(Some(v)))
            && GetOrSetStep(s.tiers, c, key, options, later).outcome == s.outcome
            && FactoryInvoked !in GetOrSetStep(s.tiers, c, key, options, later).trace
  {
    var s := GetOrSetStep(t, c, key, options, Some(Success(Some(v))));
    assert Missed(Lookup(t, c, key));
    assert s.tiers == Stored(t, c, key, Some(v), Some(options));
    SetThenGet(t, c, key, Some(v), Some(options));
  }

  /** After a miss, a failed factory result, or a success holding null, is returned and nothing is cached. */
  lemma GetOrSetDoesNotCacheFailuresOrNull<V>(t: Tiers<V>, c: Codec<V>, key: string, options: Expiration, factory: Result<Option<V>>)
    requires key !in t.memory && key !in t.distributed
    requires factory.Failure? || factory.value.None?
    ensures GetOrSetStep(t, c, key, options, Some(factory)).outcome == Returns(factory)
    ensures GetOrSetStep(t, c, key, options, Some(factory)).tiers == t
    ensures Missed(Lookup(GetOrSetStep(t, c, key, options, Some(factory)).tiers, c, key))
  {
    assert Missed(Lookup(t, c, key));
  }

  /**
    Bytes in the distributed tier that do not read back (a `JsonException`)
    make `GetOrSetAsync` throw the same exception: the factory is not called,
    nothing is stored, and every later call on the key throws again.
   */
  lemma DeserializerThrowPropagates<V>(t: Tiers<V>, c: Codec<V>, key: string, options: Expiration, factory: Result<Option<V>>)
    requires key !in t.memory && key in t.distributed
    requires c.deserialize(t.distributed[key].value).Throws?
    ensures var s := GetOrSetStep(t, c, key, options, Some(factory));
            s.outcome.Throws? && s.outcome.exception == c.deserialize(t.distributed[key].value).exception
            && s.tiers == t && FactoryInvoked !in s.trace
  {
    assert Lookup(t, c, key).Throws?;
  }

  /** The manager: the two cache services' contents and the serializer settings. */
  class CacheManager<V> {
    /** The memory cache service's entries. */
    var memory: map<string, Entry<Option<V>>>
    /** The distributed cache service's entries. */
    var distributed: map<string, Entry<Bytes>>
    /** The serializer and the cached type's name. */
    const codec: Codec<V>
    /** Every call made on the services and the factory, oldest first. */
    ghost var trace: seq<TierOp>

    /** The contents of both tiers. */
    function Contents(): Tiers<V>
      reads this
    {
      Tiers(memory, distributed)
    }

    /** A manager in front of services holding the given entries. */
    constructor(codec: Codec<V>, memory: map<string, Entry<Option<V>>>, distributed: map<string, Entry<Bytes>>)
      ensures this.codec == codec && Contents() == Tiers(memory, distributed) && trace == []
    {
      this.codec := codec;
      this.memory := memory;
      this.distributed := distributed;
      trace := [];
    }

    /** `GetAsync`: memory first, then the distributed bytes read back. */
    method Get(key: string) returns (r: Outcome<Result<Option<V>>>)
      modifies this`trace
      ensures r == Lookup(Contents(), codec, key)
      ensures trace == old(trace) + LookupTrace(Contents(), key)
    {
      trace := trace + [MemoryTryGet(key)];
      if key in memory {
        r := Returns(Success(memory[key].value));
        return;
      }
      trace := trace + [DistributedGet(key)];
      if key !in distributed {
        r := Returns(Failure(MissError(key)));
        return;
      }
      var value := codec.deserialize(distributed[key].value);
      if value.Throws? {
        r := Throws(value.exception);
      } else if value.value.None? {
        r := Returns(Failure(UnknownValueError(key, codec.typeName)));
      } else {
        r := Returns(Success(value.value));
      }
    }

    /** `SetAsync`: the memory tier first, then the serialized bytes in the distributed tier. */
    method Set(key: string, value: Option<V>, options: Option<Expiration>)
      modifies this
      ensures Contents() == Stored(old(Contents()), codec, key, value, options)
      ensures trace == old(trace) + [MemorySet(key), DistributedSet(key)]
    {
      memory := memory[key := Entry(value, EntryExpiration(options))];
      trace := trace + [MemorySet(key)];
      var valueBytes := codec.serialize(value);
      distributed := distributed[key := Entry(valueBytes, EntryExpiration(options))];
      trace := trace + [DistributedSet(key)];
    }

    /** `RemoveAsync`: the memory tier first, then the distributed tier. */
    method Remove(key: string)
      modifies this
      ensures Contents() == Removed(old(Contents()), key)
      ensures trace == old(trace) + [MemoryRemove(key), DistributedRemove(key)]
    {
      memory := memory - {key};
      trace := trace + [MemoryRemove(key)];
      distributed := distributed - {key};
      trace := trace + [DistributedRemove(key)];
    }

    /** `RefreshAsync`: asks only the distributed tier to reset its sliding expiration; no entry changes. */
    method Refresh(key: string)
      modifies this`trace
      ensures trace == old(trace) + [DistributedRefresh(key)]
    {
      trace := trace + [DistributedRefresh(key)];
    }

    /** `GetOrSetAsync`, with `factory` the result the caller's factory produces (`None` for a null factory). */
    method GetOrSet(key: string, options: Expiration, factory: Option<Result<Option<V>>>)
      returns (r: Outcome<Result<Option<V>>>)
      modifies this
      ensures var s := GetOrSetStep(old(Contents()), codec, key, options, factory);
              r == s.outcome && Contents() == s.tiers && trace == old(trace) + s.trace
    {
      if factory.None? {
        return Throws(ArgumentNull("getValueAsync"));
      }
      var got := Get(key);
      if got.Throws? {
        return got;
      }
      var result := got.value;
      if result.Success? {
        return got;
      }
      if result.error.code == Some(CacheMissErrorCode) {
        trace := trace + [FactoryInvoked];
        var newValue := factory.value;
        if newValue.Success? && newValue.value.Some? {
          Set(key, newValue.value, Some(options));
        }
        return Returns(newValue);
      }
      return got;
    }
  }

  /** Two `GetOrSetAsync` calls on a key neither tier holds: the factory runs once, and both calls return its value. */
  method GetOrSetTwice<V>(m: CacheManager<V>, key: string, options: Expiration, v: V, second: Result<Option<V>>)
    returns (first: Outcome<Result<Option<V>>>, again: Outcome<Result<Option<V>>>)
    requires key !in m.memory && key !in m.distributed
    modifies m
    ensures first == Returns(Success(Some(v))) && again == first
    ensures Lookup(m.Contents(), m.codec, key) == Returns(Success(Some(v)))
    ensures |old(m.trace)| <= |m.trace| && multiset(m.trace[|old(m.trace)|..])[FactoryInvoked] == 1
  {
    ghost var t0 := m.Contents();
    ghost var trace0 := m.trace;
    first := m.GetOrSet(key, options, Some(Success(Some(v))));
    GetOrSetPopulates(t0, m.codec, key, options, v, Some(second));
    ghost var trace1 := m.trace;
    again := m.GetOrSet(key, options, Some(second));
    assert m.trace[|trace0|..] == GetOrSetStep(t0, m.codec, key, options, Some(Success(Some(v)))).trace
                                + GetOrSetStep(m.Contents(), m.codec, key, options, Some(second)).trace;
  }
}
