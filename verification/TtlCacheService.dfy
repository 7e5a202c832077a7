/** The class TtlLruCache itself, proved to behave as the state machine of module TtlCache. */
module TtlCacheService {
  import opened Common
  import C = TtlCache

  class TtlLruCache<T(==)> {
    const maxEntries: int
    const ttlMs: int

    var entries: seq<C.Entry<T>>
    var inflight: map<C.Key, C.PromiseId>
    /** Promises are told apart by number; the callbacks of a promise carry its number and its key. */
    var nextPromise: C.PromiseId

    ghost var model: C.State<T>

    ghost function Cfg(): C.Config {
      C.Config(maxEntries, ttlMs)
    }

    ghost predicate Valid()
      reads this
    {
      entries == model.entries && inflight == model.inflight && nextPromise == |model.promises|
    }

    constructor (maxEntries: int, ttlMs: int)
      ensures Valid() && model == C.Initial() && this.maxEntries == maxEntries && this.ttlMs == ttlMs
    {
      this.maxEntries, this.ttlMs := maxEntries, ttlMs;
      entries, inflight, nextPromise := [], map[], 0;
      model := C.Initial();
    }

    method Get(key: C.Key, now: int) returns (value: Option<T>)
      requires Valid()
      modifies this
      ensures Valid() && model == C.Step(Cfg(), old(model), C.Get(key, now))
      ensures value == C.AfterGet(old(model).entries, key, now).1
    {
      model := C.Step(Cfg(), model, C.Get(key, now));
      var entry := C.Find(entries, key);
      if entry.None? {
        return None;
      }
      if entry.value.expiresAt <= now {
        entries := C.Without(entries, key);
        return None;
      }
      entries := C.Without(entries, key);
      entries := entries + [entry.value];
      return Some(entry.value.value);
    }

    /** The body of set on the entry map; the callers say where the value comes from. */
    method Store(key: C.Key, value: T, now: int)
      modifies this`entries
      ensures entries == C.AfterSet(Cfg(), old(entries), key, value, now)
    {
      entries := C.Without(entries, key);
      entries := entries + [C.Entry(key, value, now + ttlMs)];
      while |entries| > maxEntries
        invariant C.Evict(entries, maxEntries) == C.AfterSet(Cfg(), old(entries), key, value, now)
        decreases |entries|
      {
        if entries == [] {
          break;
        }
        entries := entries[1..];
      }
    }

    method Set(key: C.Key, value: T, now: int)
      requires Valid()
      modifies this
      ensures Valid() && model == C.Step(Cfg(), old(model), C.Set(key, value, now))
    {
      Store(key, value, now);
      model := C.Step(Cfg(), model, C.Set(key, value, now));
    }

    /** getOrSet up to the point where its promise is stored; `throws`: the factory threw before returning one. */
    method GetOrSet(key: C.Key, now: int, throws: bool) returns (outcome: C.Outcome<T>)
      requires Valid()
      modifies this
      ensures Valid() && model == C.Step(Cfg(), old(model), C.GetOrSet(key, now, throws))
      ensures outcome == C.OutcomeOf(old(model), key, now, throws)
    {
      ghost var after := C.Step(Cfg(), model, C.GetOrSet(key, now, throws));
      var cached := Get(key, now);
      if cached.Some? {
        outcome := C.Hit(cached.value);
      } else if key in inflight {
        outcome := C.Joined(inflight[key]);
      } else if throws {
        outcome := C.Threw;
      } else {
        outcome := C.Started(nextPromise);
        inflight := inflight[key := nextPromise];
        nextPromise := nextPromise + 1;
      }
      model := after;
    }

    /** The then-callback of a promise. */
    method OnResolved(promise: C.PromiseId, key: C.Key, value: T, now: int)
      requires Valid()
      requires promise < |model.promises| && model.promises[promise] == C.Promise(key, true)
      modifies this
      ensures Valid() && model == C.Step(Cfg(), old(model), C.Resolve(promise, value, now))
    {
      ghost var after := C.Step(Cfg(), model, C.Resolve(promise, value, now));
      if key in inflight && inflight[key] == promise {
        Store(key, value, now);
        inflight := inflight - {key};
      }
      model := after;
    }

    /** The catch-callback of a promise. */
    method OnRejected(promise: C.PromiseId, key: C.Key)
      requires Valid()
      requires promise < |model.promises| && model.promises[promise] == C.Promise(key, true)
      modifies this
      ensures Valid() && model == C.Step(Cfg(), old(model), C.Reject(promise))
    {
      ghost var after := C.Step(Cfg(), model, C.Reject(promise));
      if key in inflight && inflight[key] == promise {
        inflight := inflight - {key};
      }
      model := after;
    }

    method Clear()
      requires Valid()
      modifies this
      ensures Valid() && model == C.Step(Cfg(), old(model), C.Clear)
    {
      entries := [];
      inflight := map[];
      model := C.Step(Cfg(), model, C.Clear);
    }
  }
}
