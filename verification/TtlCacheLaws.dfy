/** What the cache owes its callers: which calls hit, when an entry may go, and how long one that is used stays. */
module TtlCacheLaws {
  import opened Common
  import opened TtlCache
  import opened TtlCacheProofs

  // ----- Hits -----

  /** The cache holds this entry, and it has not expired. */
  predicate Live<T(==)>(s: State<T>, e: Entry<T>, now: int) {
    e in s.entries && now < e.expiresAt
  }

  lemma FoundAt<T>(es: seq<Entry<T>>, e: Entry<T>) returns (i: nat)
    requires DistinctKeys(es) && e in es
    ensures i < |es| && es[i] == e && IndexOf(es, e.key) == i
  {
    i :| 0 <= i < |es| && es[i] == e;
    var k := IndexOf(es, e.key);
    assert k <= i;
  }

  lemma NotFound<T>(es: seq<Entry<T>>, key: Key)
    requires forall e :: e in es ==> e.key != key
    ensures IndexOf(es, key) == |es|
  {
  }

  /**
   A read returns exactly the value of the unexpired entry under its key, and makes that entry the newest; an
   expired entry is dropped; otherwise nothing is there to return.
   */
  lemma ReadIsExact<T>(c: Config, s: State<T>, key: Key, now: int, value: T)
    requires Inv(c, s)
    ensures AfterGet(s.entries, key, now).1 == Some(value)
            <==> exists e :: e in s.entries && e.key == key && e.value == value && now < e.expiresAt
    ensures var t := Step(c, s, Get(key, now));
            && t.inflight == s.inflight && t.promises == s.promises
            && (forall e :: e in t.entries <==> e in s.entries && (e.key == key ==> now < e.expiresAt))
            && (forall e :: Live(s, e, now) && e.key == key ==> t.entries[|t.entries| - 1] == e)
  {
    if e :| e in s.entries && e.key == key {
      var i := FoundAt(s.entries, e);
      WithoutKeepsOthers(s.entries, key);
      forall x | x in s.entries && x.key == key ensures x == e {
        var j := FoundAt(s.entries, x);
      }
    } else {
      NotFound(s.entries, key);
    }
  }

  /** What getOrSet hands out: the live entry's value, else the promise in flight for the key, else a new one. */
  lemma GetOrSetIsExact<T>(c: Config, s: State<T>, key: Key, now: int, throws: bool)
    requires Inv(c, s)
    ensures var r := OutcomeOf(s, key, now, throws);
            var t := Step(c, s, GetOrSet(key, now, throws));
            && (forall e :: Live(s, e, now) && e.key == key ==> r == Hit(e.value))
            && ((forall e :: Live(s, e, now) ==> e.key != key) ==>
                  r == if key in s.inflight then Joined(s.inflight[key]) else if throws then Threw
                       else Started(|s.promises|))
            && t.entries == Step(c, s, Get(key, now)).entries
            && t.promises == (if r.Started? then s.promises + [Promise(key, true)] else s.promises)
            && t.inflight == (if r.Started? then s.inflight[key := |s.promises|] else s.inflight)
  {
    if e :| e in s.entries && e.key == key {
      var i := FoundAt(s.entries, e);
      forall x | x in s.entries && x.key == key ensures x == e {
        var j := FoundAt(s.entries, x);
      }
    } else {
      NotFound(s.entries, key);
    }
  }

  /** Afterwards the newest entry, unless the cache is to hold nothing. */
  lemma SetIsNewest<T>(c: Config, es: seq<Entry<T>>, key: Key, value: T, now: int)
    requires c.maxEntries >= 1
    ensures var out := AfterSet(c, es, key, value, now);
            out != [] && out[|out| - 1] == Entry(key, value, now + c.ttl)
  {
    EvictKeepsNewest(Without(es, key) + [Entry(key, value, now + c.ttl)], c.maxEntries);
  }

  /** A value just set is returned by the next reads of its key exactly until its time to live is over. */
  lemma SetThenHit<T>(c: Config, s: State<T>, key: Key, value: T, now: int, later: int, throws: bool)
    requires Inv(c, s) && c.maxEntries >= 1
    ensures var t := Step(c, s, Set(key, value, now));
            && AfterGet(t.entries, key, later).1 == (if later < now + c.ttl then Some(value) else None)
            && (OutcomeOf(t, key, later, throws).Hit? <==> later < now + c.ttl)
            && (later < now + c.ttl ==> OutcomeOf(t, key, later, throws) == Hit(value))
  {
    var t := Step(c, s, Set(key, value, now));
    StepKeepsInv(c, s, Set(key, value, now));
    SetIsNewest(c, s.entries, key, value, now);
    var i := FoundAt(t.entries, Entry(key, value, now + c.ttl));
  }

  /** A promise in flight that resolves stores its value under its key and is in flight no more; one that rejects
      stores nothing, so the next call starts anew. */
  lemma SettledPromise<T>(c: Config, s: State<T>, p: PromiseId, value: T, now: int)
    requires Inv(c, s) && s.history.since <= p < |s.promises| && s.promises[p].pending
    ensures var key := s.promises[p].key;
            var t := Step(c, s, Resolve(p, value, now));
            var u := Step(c, s, Reject(p));
            && key in s.inflight && s.inflight[key] == p
            && t.entries == Step(c, s, Set(key, value, now)).entries
            && u.entries == s.entries
            && t.inflight == s.inflight - {key} && u.inflight == s.inflight - {key}
            && t.promises == s.promises[p := Promise(key, false)] && u.promises == t.promises
  {
    assert Current(s, p);
  }

  // ----- When an entry goes -----

  /** The key a call is about. */
  function About<T>(s: State<T>, a: Action<T>): Option<Key> {
    match a
    case Get(key, _) => Some(key)
    case Set(key, _, _) => Some(key)
    case GetOrSet(key, _, _) => Some(key)
    case Resolve(p, _, _) => if p < |s.promises| then Some(s.promises[p].key) else None
    case _ => None
  }

  /** The call may put a new value under the key it is about. */
  predicate Writes<T>(a: Action<T>) {
    a.Set? || a.Resolve?
  }

  predicate Reads<T>(a: Action<T>) {
    a.Get? || a.GetOrSet?
  }

  lemma AppendKeeps<T>(rest: seq<Entry<T>>, x: Entry<T>, e: Entry<T>, bound: nat)
    requires e in rest && |rest| <= bound && (|rest| < bound || rest[0] != e)
    ensures e in Evict(rest + [x], bound)
  {
    var i :| 0 <= i < |rest| && rest[i] == e;
    var all, n := rest + [x], if |rest| < bound then 0 else 1;
    EvictKeepsNewest(all, bound);
    assert n <= i && all[n..][i - n] == e;
  }

  lemma SetKeepsTheRest<T>(c: Config, s: State<T>, key: Key, value: T, now: int, e: Entry<T>)
    requires EntriesOk(c, s) && c.maxEntries >= 1 && e in s.entries && e.key != key
    requires |s.entries| < c.maxEntries || s.entries[0] != e
    ensures e in AfterSet(c, s.entries, key, value, now)
  {
    var rest := Without(s.entries, key);
    WithoutKeepsOthers(s.entries, key);
    assert |rest| < |s.entries| || rest == s.entries;
    AppendKeeps(rest, Entry(key, value, now + c.ttl), e, c.maxEntries);
  }

  /**
   An entry goes only by a clear, by a read of its key after it expired, by a new value under its key, or as the
   one that was not used for longest in a full cache that takes in another key.
   */
  lemma EntryStays<T>(c: Config, s: State<T>, a: Action<T>, e: Entry<T>)
    requires Inv(c, s) && c.maxEntries >= 1 && e in s.entries && e !in Step(c, s, a).entries
    ensures || a.Clear?
            || (Reads(a) && a.key == e.key && e.expiresAt <= a.now)
            || (Writes(a) && About(s, a) == Some(e.key))
            || (Writes(a) && |s.entries| == c.maxEntries && s.entries[0] == e)
  {
    match a
    case Get(key, now) => ReadIsExact(c, s, key, now, e.value);
    case GetOrSet(key, now, _) => ReadIsExact(c, s, key, now, e.value);
    case Set(key, value, now) =>
      if key != e.key && (|s.entries| < c.maxEntries || s.entries[0] != e) {
        SetKeepsTheRest(c, s, key, value, now, e);
      }
    case Resolve(p, value, now) =>
      if && p < |s.promises| && s.promises[p].key != e.key
         && (|s.entries| < c.maxEntries || s.entries[0] != e)
      {
        SetKeepsTheRest(c, s, s.promises[p].key, value, now, e);
      }
    case _ =>
  }

  // ----- How long an entry stays -----

  /** The run does not clear, does not write under the key, and reads it only before `until`. */
  ghost predicate Spares<T>(c: Config, s: State<T>, acts: seq<Action<T>>, key: Key, until: int)
    decreases |acts|
  {
    acts == []
    || (&& !acts[0].Clear? && !(Writes(acts[0]) && About(s, acts[0]) == Some(key))
        && (Reads(acts[0]) && acts[0].key == key ==> acts[0].now < until)
        && Spares(c, Step(c, s, acts[0]), acts[1..], key, until))
  }

  /** The keys the calls of a run are about. */
  function KeysOf<T>(c: Config, s: State<T>, acts: seq<Action<T>>): set<Key>
    decreases |acts|
  {
    if acts == [] then {}
    else (if About(s, acts[0]).Some? then {About(s, acts[0]).value} else {})
         + KeysOf(c, Step(c, s, acts[0]), acts[1..])
  }

  /** The entry is there, and whatever is newer has one of these keys. */
  ghost predicate BehindOnly<T>(es: seq<Entry<T>>, e: Entry<T>, keys: set<Key>) {
    exists i :: 0 <= i < |es| && es[i] == e && forall k :: i < k < |es| ==> es[k].key in keys
  }

  lemma {:induction false} NewerFit<T>(es: seq<Entry<T>>, keys: set<Key>)
    requires DistinctKeys(es) && forall k :: 0 <= k < |es| ==> es[k].key in keys
    ensures |es| <= |keys|
  {
    if es != [] {
      NewerFit(es[1..], keys - {es[0].key});
    }
  }

  lemma DropFront<T>(es: seq<Entry<T>>, n: nat, i: nat, keys: set<Key>)
    requires n <= i < |es| && forall k :: i < k < |es| ==> es[k].key in keys
    ensures BehindOnly(es[n..], es[i], keys)
  {
    assert es[n..][i - n] == es[i];
  }

  /** Appending an entry evicts none that has fewer others behind it than the cache holds. */
  lemma AppendedStays<T>(rest: seq<Entry<T>>, e: Entry<T>, x: Entry<T>, keys: set<Key>, bound: nat)
    requires DistinctKeys(rest + [x]) && BehindOnly(rest, e, keys) && |keys + {x.key}| < bound
    ensures BehindOnly(Evict(rest + [x], bound), e, keys + {x.key})
  {
    var i :| 0 <= i < |rest| && rest[i] == e && forall k :: i < k < |rest| ==> rest[k].key in keys;
    var all := rest + [x];
    assert all[i] == e && forall k :: i < k < |all| ==> all[k].key in keys + {x.key};
    NewerFit(all[i + 1..], keys + {x.key});
    EvictKeepsNewest(all, bound);
    DropFront(all, if |all| <= bound then 0 else |all| - bound, i, keys + {x.key});
  }

  lemma TakenOutStays<T>(es: seq<Entry<T>>, e: Entry<T>, key: Key, keys: set<Key>)
    requires BehindOnly(es, e, keys) && e.key != key
    ensures BehindOnly(Without(es, key), e, keys)
  {
    var i :| 0 <= i < |es| && es[i] == e && forall k :: i < k < |es| ==> es[k].key in keys;
    var j, rest := IndexOf(es, key), Without(es, key);
    var at := if j < i then i - 1 else i;
    assert rest[at] == e;
    forall k | at < k < |rest| ensures rest[k].key in keys {
      assert rest[k] == if k < j then es[k] else es[k + 1];
    }
  }

  lemma SetLeaves<T>(c: Config, s: State<T>, key: Key, value: T, now: int, e: Entry<T>, keys: set<Key>)
    requires EntriesOk(c, s) && BehindOnly(s.entries, e, keys) && e.key !in keys + {key}
    requires |keys + {key}| < c.maxEntries
    ensures BehindOnly(AfterSet(c, s.entries, key, value, now), e, keys + {key})
  {
    var new_ := Entry(key, value, now + c.ttl);
    TakenOutStays(s.entries, e, key, keys);
    MoveToEnd(s, key, new_);
    AppendedStays(Without(s.entries, key), e, new_, keys, c.maxEntries);
  }

  lemma AppendLeaves<T>(rest: seq<Entry<T>>, e: Entry<T>, x: Entry<T>, keys: set<Key>)
    requires BehindOnly(rest, e, keys)
    ensures BehindOnly(rest + [x], e, keys + {x.key})
  {
    var i :| 0 <= i < |rest| && rest[i] == e && forall k :: i < k < |rest| ==> rest[k].key in keys;
    assert (rest + [x])[i] == e;
  }

  lemma MoreKeys<T>(es: seq<Entry<T>>, e: Entry<T>, keys: set<Key>, key: Key)
    requires BehindOnly(es, e, keys)
    ensures BehindOnly(es, e, keys + {key})
  {
    var i :| 0 <= i < |es| && es[i] == e && forall k :: i < k < |es| ==> es[k].key in keys;
    assert es[i] == e;
  }

  lemma ReadLeaves<T>(c: Config, s: State<T>, key: Key, now: int, e: Entry<T>, keys: set<Key>)
    requires EntriesOk(c, s) && BehindOnly(s.entries, e, keys) && (e.key == key ==> now < e.expiresAt)
    ensures BehindOnly(AfterGet(s.entries, key, now).0, e, keys + {key})
  {
    var found, rest := Find(s.entries, key), Without(s.entries, key);
    if key == e.key {
      var at := FoundAt(s.entries, e);
      assert (rest + [e])[|rest|] == e;
    } else if found.None? {
      MoreKeys(s.entries, e, keys, key);
    } else {
      TakenOutStays(s.entries, e, key, keys);
      MoreKeys(rest, e, keys, key);
      AppendLeaves(rest, e, found.value, keys);
    }
  }

  lemma DropOwnKey<T>(es: seq<Entry<T>>, e: Entry<T>, keys: set<Key>, c: Config, s: State<T>, a: Action<T>)
    requires Inv(c, s) && es == Step(c, s, a).entries && BehindOnly(es, e, keys)
    ensures BehindOnly(es, e, keys - {e.key})
  {
    StepKeepsInv(c, s, a);
    var i :| 0 <= i < |es| && es[i] == e && forall k :: i < k < |es| ==> es[k].key in keys;
    assert forall k :: i < k < |es| ==> es[k].key != es[i].key;
  }

  /** The keys that are named when a run has named `keys` so far and goes on with `a`. */
  function Named<T>(s: State<T>, a: Action<T>, keys: set<Key>): set<Key> {
    if About(s, a).Some? then keys + {About(s, a).value} else keys
  }

  lemma ReadStepLeaves<T>(c: Config, s: State<T>, a: Action<T>, e: Entry<T>, keys: set<Key>)
    requires Inv(c, s) && BehindOnly(s.entries, e, keys) && Reads(a) && (a.key == e.key ==> a.now < e.expiresAt)
    ensures BehindOnly(Step(c, s, a).entries, e, Named(s, a, keys) - {e.key})
  {
    ReadLeaves(c, s, a.key, a.now, e, keys);
    DropOwnKey(Step(c, s, a).entries, e, keys + {a.key}, c, s, a);
  }

  lemma WriteStepLeaves<T>(c: Config, s: State<T>, a: Action<T>, e: Entry<T>, keys: set<Key>)
    requires Inv(c, s) && BehindOnly(s.entries, e, keys) && Writes(a) && e.key !in Named(s, a, keys)
    requires |Named(s, a, keys)| < c.maxEntries
    ensures BehindOnly(Step(c, s, a).entries, e, Named(s, a, keys))
  {
    match a
    case Set(key, value, now) => SetLeaves(c, s, key, value, now, e, keys);
    case Resolve(p, value, now) =>
      if p < |s.promises| {
        MoreKeys(s.entries, e, keys, s.promises[p].key);
        if s.promises[p].pending && Current(s, p) {
          SetLeaves(c, s, s.promises[p].key, value, now, e, keys);
        }
      }
  }

  lemma StepLeaves<T>(c: Config, s: State<T>, a: Action<T>, e: Entry<T>, keys: set<Key>)
    requires Inv(c, s) && BehindOnly(s.entries, e, keys) && e.key !in keys
    requires !a.Clear? && !(Writes(a) && About(s, a) == Some(e.key))
    requires Reads(a) && a.key == e.key ==> a.now < e.expiresAt
    requires |Named(s, a, keys) - {e.key}| < c.maxEntries
    ensures BehindOnly(Step(c, s, a).entries, e, Named(s, a, keys) - {e.key})
  {
    if Reads(a) {
      ReadStepLeaves(c, s, a, e, keys);
    } else {
      assert Named(s, a, keys) - {e.key} == Named(s, a, keys);
      if Writes(a) {
        WriteStepLeaves(c, s, a, e, keys);
      }
    }
  }

  lemma {:induction false} RunLeaves<T>(c: Config, s: State<T>, acts: seq<Action<T>>, e: Entry<T>, keys: set<Key>)
    requires Inv(c, s) && BehindOnly(s.entries, e, keys) && e.key !in keys
    requires Spares(c, s, acts, e.key, e.expiresAt) && |keys + KeysOf(c, s, acts) - {e.key}| < c.maxEntries
    ensures Inv(c, Run(c, s, acts)) && e in Run(c, s, acts).entries
    decreases |acts|
  {
    if acts != [] {
      var a, t, named := acts[0], Step(c, s, acts[0]), Named(s, acts[0], keys) - {e.key};
      SmallerSet(named, keys + KeysOf(c, s, acts) - {e.key});
      StepLeaves(c, s, a, e, keys);
      StepKeepsInv(c, s, a);
      assert named + KeysOf(c, t, acts[1..]) - {e.key} == keys + KeysOf(c, s, acts) - {e.key};
      RunLeaves(c, t, acts[1..], e, named);
    }
  }

  lemma SmallerSet(a: set<Key>, b: set<Key>)
    requires a <= b
    ensures |a| <= |b|
  {
    assert b == a + (b - a);
  }

  /** `s` is the state of some run after `e` was set. */
  ghost predicate JustSet<T>(c: Config, before: seq<Action<T>>, e: Entry<T>, now: int, s: State<T>) {
    s == Step(c, Run(c, Initial(), before), Set(e.key, e.value, now)) && e.expiresAt == now + c.ttl
  }

  lemma SetIsInFront<T>(c: Config, before: seq<Action<T>>, e: Entry<T>, now: int, s: State<T>)
    requires JustSet(c, before, e, now, s) && c.maxEntries >= 1
    ensures Inv(c, s) && BehindOnly(s.entries, e, {})
  {
    RunKeepsInv(c, Initial<T>(), before);
    var r := Run(c, Initial<T>(), before);
    StepKeepsInv(c, r, Set(e.key, e.value, now));
    SetIsNewest(c, r.entries, e.key, e.value, now);
    assert s.entries[|s.entries| - 1] == e;
  }

  lemma LiveIsHit<T>(c: Config, s: State<T>, e: Entry<T>, now: int, throws: bool)
    requires Inv(c, s) && e in s.entries
    ensures AfterGet(s.entries, e.key, now).1 == (if now < e.expiresAt then Some(e.value) else None)
    ensures now < e.expiresAt ==> OutcomeOf(s, e.key, now, throws) == Hit(e.value)
  {
    var i := FoundAt(s.entries, e);
  }

  lemma FrontOutlives<T>(c: Config, s: State<T>, e: Entry<T>, after: seq<Action<T>>)
    requires Inv(c, s) && BehindOnly(s.entries, e, {})
    requires Spares(c, s, after, e.key, e.expiresAt) && |KeysOf(c, s, after) - {e.key}| < c.maxEntries
    ensures Inv(c, Run(c, s, after)) && e in Run(c, s, after).entries
  {
    assert {} + KeysOf(c, s, after) - {e.key} == KeysOf(c, s, after) - {e.key};
    RunLeaves(c, s, after, e, {});
  }

  /**
   The promise of a least-recently-used cache, in every run: after a set, while fewer than maxEntries other keys are
   named and nothing clears or rewrites the key, every read of the key returns the value until its time is over.
   */
  lemma EntryOutlivesFewOthers<T>(c: Config, before: seq<Action<T>>, e: Entry<T>, now: int, s: State<T>,
                                  after: seq<Action<T>>, later: int, throws: bool)
    requires JustSet(c, before, e, now, s)
    requires Spares(c, s, after, e.key, e.expiresAt) && |KeysOf(c, s, after) - {e.key}| < c.maxEntries
    ensures AfterGet(Run(c, s, after).entries, e.key, later).1 == (if later < e.expiresAt then Some(e.value) else None)
    ensures later < e.expiresAt ==> OutcomeOf(Run(c, s, after), e.key, later, throws) == Hit(e.value)
  {
    SetIsInFront(c, before, e, now, s);
    FrontOutlives(c, s, e, after);
    LiveIsHit(c, Run(c, s, after), e, later, throws);
  }
}
