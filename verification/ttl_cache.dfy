/**
 * The in-memory branch of the shared string cache: each key maps to a value
 * and an expiry instant.  The clock (`time.time()`) and the default-TTL
 * draw (`random.randint(900, 3600)`) are inputs; the Redis branch is not
 * modelled.
 */
module TtlCache {

  import opened Common

  /** A cached value and the instant after which it is stale. */
  datatype Entry = Entry(value: string, expiry: real)

  /** The result of a `get` together with the cache it leaves behind. */
  datatype Lookup = Lookup(value: Option<string>, memory: map<string, Entry>)

  /** `ttl or random.randint(900, 3600)`: a missing or zero TTL is replaced by the draw. */
  function EffectiveTtl(ttl: Option<int>, draw: int): (t: int)
    ensures ttl.None? || ttl.value == 0 ==> t == draw
    ensures ttl.Some? && ttl.value != 0 ==> t == ttl.value
  {
    if ttl.None? || ttl.value == 0 then draw else ttl.value
  }

  /** With the draw in its range, a defaulted TTL lies between 15 and 60 minutes. */
  lemma DefaultTtlRange(ttl: Option<int>, draw: int)
    requires 900 <= draw <= 3600
    ensures ttl.None? || ttl.value == 0 ==> 900 <= EffectiveTtl(ttl, draw) <= 3600
  {
  }

  /**
   * `get(key)` at instant `now`: nothing for an absent key; an entry whose
   * expiry is before `now` is dropped and nothing is returned; otherwise
   * the value is returned and the cache is left as it was, so an entry is
   * still live at its expiry instant.
   */
  function GetStep(memory: map<string, Entry>, key: string, now: real): (r: Lookup)
    ensures key !in memory ==> r == Lookup(None, memory)
    ensures key in memory && memory[key].expiry < now ==> r == Lookup(None, memory - {key})
    ensures key in memory && now <= memory[key].expiry ==> r == Lookup(Some(memory[key].value), memory)
  {
    if key !in memory then Lookup(None, memory)
    else if memory[key].expiry < now then Lookup(None, memory - {key})
    else Lookup(Some(memory[key].value), memory)
  }

  /** `set(key, value, ttl)` at instant `now`: the entry is overwritten with the value and `now + ttl`. */
  function SetStep(memory: map<string, Entry>, key: string, value: string, ttl: Option<int>, draw: int, now: real)
    : (m: map<string, Entry>)
    ensures key in m && m[key] == Entry(value, now + EffectiveTtl(ttl, draw) as real)
    ensures forall k :: k != key ==> (k in m <==> k in memory)
    ensures forall k :: k != key && k in memory ==> m[k] == memory[k]
  {
    memory[key := Entry(value, now + EffectiveTtl(ttl, draw) as real)]
  }

  /**
   * A value set at `now` is returned by every `get` up to and including
   * its expiry, and by none after it.
   */
  lemma SetThenGet(memory: map<string, Entry>, key: string, value: string, ttl: Option<int>, draw: int, now: real, later: real)
    ensures var m := SetStep(memory, key, value, ttl, draw, now);
      && (later <= now + EffectiveTtl(ttl, draw) as real ==> GetStep(m, key, later) == Lookup(Some(value), m))
      && (later > now + EffectiveTtl(ttl, draw) as real ==> GetStep(m, key, later) == Lookup(None, memory - {key}))
  {
    var m := SetStep(memory, key, value, ttl, draw, now);
    assert m - {key} == memory - {key};
  }

  /** `set` and `get` on one key leave what every other key answers unchanged. */
  lemma OtherKeysUnaffected(memory: map<string, Entry>, key: string, other: string, value: string, ttl: Option<int>, draw: int, now: real, t: real)
    requires other != key
    ensures GetStep(SetStep(memory, key, value, ttl, draw, now), other, t).value == GetStep(memory, other, t).value
    ensures GetStep(GetStep(memory, key, now).memory, other, t).value == GetStep(memory, other, t).value
  {
  }

  /** A second `get` at the same instant answers as the first and changes nothing more. */
  lemma GetIdempotent(memory: map<string, Entry>, key: string, now: real)
    ensures var first := GetStep(memory, key, now);
      GetStep(first.memory, key, now) == first
  {
  }

  /** Expiry is final: once a key answers nothing, it answers nothing at every later instant. */
  lemma ExpiredStaysExpired(memory: map<string, Entry>, key: string, now: real, later: real)
    requires GetStep(memory, key, now).value.None?
    requires now <= later
    ensures GetStep(GetStep(memory, key, now).memory, key, later).value.None?
    ensures GetStep(memory, key, later).value.None?
  {
  }

  /** The module-level `_memory_cache`. */
  class MemoryCache {
    var memory: map<string, Entry>

    constructor ()
      ensures memory == map[]
    {
      memory := map[];
    }

    /** `get(key)` at instant `now`. */
    method Get(key: string, now: real) returns (r: Option<string>)
      modifies this
      ensures Lookup(r, memory) == GetStep(old(memory), key, now)
    {
      if key !in memory {
        return None;
      }
      var entry := memory[key];
      if entry.expiry < now {
        memory := memory - {key};
        return None;
      }
      return Some(entry.value);
    }

    /** `set(key, value, ttl)` at instant `now`, with `draw` standing for `random.randint(900, 3600)`. */
    method Set(key: string, value: string, ttl: Option<int>, draw: int, now: real)
      modifies this
      ensures memory == SetStep(old(memory), key, value, ttl, draw, now)
    {
      var t := if ttl.None? || ttl.value == 0 then draw else ttl.value;
      memory := memory[key := Entry(value, now + t as real)];
    }
  }
}
