/**
 TtlLruCache of catalog-ttl-cache.ts as a state machine: entries in the insertion order of the JavaScript
 Map, the promises in flight, and the calls and callbacks in any order.

 A promise is named by the order in which its factory started. The history fields only record what
 happened; no decision reads them.
 */
module TtlCache {
  import opened Common

  type Key = string
  type PromiseId = nat

  datatype Entry<+T> = Entry(key: Key, value: T, expiresAt: int)

  datatype Promise = Promise(key: Key, pending: bool)

  /** `since` is the number of promises started before the last clear; `used`, `origin` and `latest` say for
      each key when it was last set or hit, which promise supplied its value, and what was set last. */
  datatype History<T> = History(
    since: nat,
    tick: nat,
    used: map<Key, nat>,
    origin: map<Key, Option<PromiseId>>,
    latest: map<Key, Entry<T>>)

  datatype State<T> = State(
    entries: seq<Entry<T>>,
    inflight: map<Key, PromiseId>,
    promises: seq<Promise>,
    history: History<T>)

  datatype Config = Config(maxEntries: int, ttl: int)

  datatype Action<T> =
    | Get(key: Key, now: int)
    | Set(key: Key, value: T, now: int)
    | GetOrSet(key: Key, now: int, throws: bool)
    | Resolve(promise: PromiseId, value: T, now: int)
    | Reject(promise: PromiseId)
    | Clear

  /** What getOrSet hands to its caller. */
  datatype Outcome<+T> = Hit(value: T) | Joined(promise: PromiseId) | Started(promise: PromiseId) | Threw

  // ----- The entry map -----

  /** Where a key is, or the size of the map when it is absent. */
  function IndexOf<T>(es: seq<Entry<T>>, key: Key): (i: nat)
    ensures i <= |es|
    ensures i < |es| ==> es[i].key == key
    ensures forall k :: 0 <= k < i ==> es[k].key != key
  {
    if es == [] || es[0].key == key then 0 else 1 + IndexOf(es[1..], key)
  }

  function Find<T>(es: seq<Entry<T>>, key: Key): Option<Entry<T>> {
    var i := IndexOf(es, key);
    if i == |es| then None else Some(es[i])
  }

  /** Map.delete: the later entries keep their order. */
  function Without<T>(es: seq<Entry<T>>, key: Key): seq<Entry<T>> {
    var i := IndexOf(es, key);
    if i == |es| then es else es[..i] + es[i + 1..]
  }

  /** The eviction loop of set: drop the oldest entry while there are too many. */
  function Evict<T>(es: seq<Entry<T>>, maxEntries: int): seq<Entry<T>>
    decreases |es|
  {
    if |es| > maxEntries && es != [] then Evict(es[1..], maxEntries) else es
  }

  function AfterGet<T>(es: seq<Entry<T>>, key: Key, now: int): (seq<Entry<T>>, Option<T>) {
    match Find(es, key)
    case None => (es, None)
    case Some(e) =>
      if e.expiresAt <= now then (Without(es, key), None)
      else (Without(es, key) + [e], Some(e.value))
  }

  function AfterSet<T>(c: Config, es: seq<Entry<T>>, key: Key, value: T, now: int): seq<Entry<T>> {
    Evict(Without(es, key) + [Entry(key, value, now + c.ttl)], c.maxEntries)
  }

  // ----- Steps -----

  function DoGet<T>(s: State<T>, key: Key, now: int): State<T> {
    var r := AfterGet(s.entries, key, now);
    var h := s.history;
    s.(entries := r.0,
       history := if r.1.None? then h else h.(tick := h.tick + 1, used := h.used[key := h.tick]))
  }

  function DoSet<T>(c: Config, s: State<T>, key: Key, value: T, now: int, from: Option<PromiseId>): State<T> {
    var h := s.history;
    s.(entries := AfterSet(c, s.entries, key, value, now),
       history := h.(tick := h.tick + 1,
                     used := h.used[key := h.tick],
                     origin := h.origin[key := from],
                     latest := h.latest[key := Entry(key, value, now + c.ttl)]))
  }

  function OutcomeOf<T>(s: State<T>, key: Key, now: int, throws: bool): Outcome<T> {
    match AfterGet(s.entries, key, now).1
    case Some(v) => Hit(v)
    case None =>
      if key in s.inflight then Joined(s.inflight[key])
      else if throws then Threw
      else Started(|s.promises|)
  }

  function DoGetOrSet<T>(s: State<T>, key: Key, now: int, throws: bool): State<T> {
    var t := DoGet(s, key, now);
    match OutcomeOf(s, key, now, throws)
    case Started(p) =>
      t.(promises := s.promises + [Promise(key, true)], inflight := s.inflight[key := p])
    case _ => t
  }

  predicate Current<T>(s: State<T>, p: PromiseId)
    requires p < |s.promises|
  {
    s.promises[p].key in s.inflight && s.inflight[s.promises[p].key] == p
  }

  function Settle<T>(s: State<T>, p: PromiseId): State<T>
    requires p < |s.promises|
  {
    s.(promises := s.promises[p := s.promises[p].(pending := false)],
       inflight := if Current(s, p) then s.inflight - {s.promises[p].key} else s.inflight)
  }

  function Step<T>(c: Config, s: State<T>, a: Action<T>): State<T> {
    match a
    case Get(key, now) => DoGet(s, key, now)
    case Set(key, value, now) => DoSet(c, s, key, value, now, None)
    case GetOrSet(key, now, throws) => DoGetOrSet(s, key, now, throws)
    case Resolve(p, value, now) =>
      if p >= |s.promises| || !s.promises[p].pending then s
      else if Current(s, p) then Settle(DoSet(c, s, s.promises[p].key, value, now, Some(p)), p)
      else Settle(s, p)
    case Reject(p) =>
      if p >= |s.promises| || !s.promises[p].pending then s else Settle(s, p)
    case Clear =>
      s.(entries := [], inflight := map[], history := s.history.(since := |s.promises|, latest := map[]))
  }

  function Run<T>(c: Config, s: State<T>, acts: seq<Action<T>>): State<T>
    decreases |acts|
  {
    if acts == [] then s else Run(c, Step(c, s, acts[0]), acts[1..])
  }

  function Initial<T>(): State<T> {
    State([], map[], [], History(0, 0, map[], map[], map[]))
  }

  // ----- Facts about the entry map -----

  predicate DistinctKeys<T>(es: seq<Entry<T>>) {
    forall i, j :: 0 <= i < j < |es| ==> es[i].key != es[j].key
  }

  lemma WithoutKeepsOthers<T>(es: seq<Entry<T>>, key: Key)
    requires DistinctKeys(es)
    ensures DistinctKeys(Without(es, key))
    ensures forall k :: 0 <= k < |Without(es, key)| ==> Without(es, key)[k].key != key && Without(es, key)[k] in es
    ensures forall e :: e in es && e.key != key ==> e in Without(es, key)
  {
    var i := IndexOf(es, key);
    var rest := Without(es, key);
    forall e | e in es && e.key != key ensures e in rest {
      var k :| 0 <= k < |es| && es[k] == e;
      assert i < |es| ==> rest[if k < i then k else k - 1] == e;
    }
  }

  function Bound(maxEntries: int): nat {
    if maxEntries < 0 then 0 else maxEntries
  }

  /** Eviction keeps the newest entries, as many as fit. */
  lemma {:induction false} EvictKeepsNewest<T>(es: seq<Entry<T>>, maxEntries: int)
    ensures var n := if |es| <= Bound(maxEntries) then 0 else |es| - Bound(maxEntries);
            Evict(es, maxEntries) == es[n..]
    decreases |es|
  {
    if |es| > maxEntries && es != [] {
      EvictKeepsNewest(es[1..], maxEntries);
    }
  }
}
