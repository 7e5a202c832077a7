/** Coherence of the cache over every run of calls, callbacks and clears. */
module TtlCacheProofs {
  import opened Common
  import opened TtlCache

  // ----- The invariant -----

  /** Every entry is the latest one set under its key, and its value came from no promise older than the clear. */
  predicate EntryOk<T(==)>(s: State<T>, e: Entry<T>) {
    var h := s.history;
    && e.key in h.used && h.used[e.key] < h.tick
    && e.key in h.latest && h.latest[e.key] == e
    && e.key in h.origin
    && (h.origin[e.key].Some? ==> h.since <= h.origin[e.key].value < |s.promises|)
  }

  /** Least recently used first. */
  predicate InRecencyOrder<T>(es: seq<Entry<T>>, used: map<Key, nat>) {
    && (forall k :: 0 <= k < |es| ==> es[k].key in used)
    && (forall i, j :: 0 <= i < j < |es| ==> used[es[i].key] < used[es[j].key])
  }

  predicate EntriesOk<T(==)>(c: Config, s: State<T>) {
    && DistinctKeys(s.entries) && |s.entries| <= Bound(c.maxEntries)
    && (forall e :: e in s.entries ==> EntryOk(s, e))
    && InRecencyOrder(s.entries, s.history.used)
  }

  /** The promises in flight are exactly the pending ones started since the last clear. */
  predicate InflightOk<T>(s: State<T>) {
    && s.history.since <= |s.promises|
    && (forall key :: key in s.inflight ==>
          s.history.since <= s.inflight[key] < |s.promises|
          && s.promises[s.inflight[key]] == Promise(key, true))
    && (forall p: PromiseId :: s.history.since <= p < |s.promises| && s.promises[p].pending ==> Current(s, p))
  }

  predicate Inv<T(==)>(c: Config, s: State<T>) {
    EntriesOk(c, s) && InflightOk(s)
  }

  // ----- Calls keep it -----

  lemma AppendKeepsOrder<T>(rest: seq<Entry<T>>, e: Entry<T>, used: map<Key, nat>, tick: nat)
    requires DistinctKeys(rest) && InRecencyOrder(rest, used)
    requires forall k :: 0 <= k < |rest| ==> used[rest[k].key] < tick && rest[k].key != e.key
    ensures DistinctKeys(rest + [e]) && InRecencyOrder(rest + [e], used[e.key := tick])
  {
  }

  lemma WithoutKeepsOrder<T>(es: seq<Entry<T>>, key: Key, used: map<Key, nat>)
    requires InRecencyOrder(es, used)
    ensures InRecencyOrder(Without(es, key), used)
  {
  }

  /** Taking an entry out and putting it, or a new one for its key, at the end. */
  lemma MoveToEnd<T>(s: State<T>, key: Key, e: Entry<T>)
    requires DistinctKeys(s.entries) && e.key == key
    requires (forall x :: x in s.entries ==> EntryOk(s, x)) && InRecencyOrder(s.entries, s.history.used)
    ensures var out := Without(s.entries, key) + [e];
            && DistinctKeys(out)
            && InRecencyOrder(out, s.history.used[key := s.history.tick])
            && forall x :: x in out && x != e ==> x in s.entries && x.key != key
  {
    WithoutKeepsOthers(s.entries, key);
    WithoutKeepsOrder(s.entries, key, s.history.used);
    var rest := Without(s.entries, key);
    forall k | 0 <= k < |rest| ensures s.history.used[rest[k].key] < s.history.tick {
      assert EntryOk(s, rest[k]);
    }
    AppendKeepsOrder(rest, e, s.history.used, s.history.tick);
  }

  lemma GetKeepsEntries<T>(c: Config, s: State<T>, key: Key, now: int)
    requires EntriesOk(c, s)
    ensures EntriesOk(c, DoGet(s, key, now))
  {
    var found := Find(s.entries, key);
    if found.Some? {
      WithoutKeepsOthers(s.entries, key);
      WithoutKeepsOrder(s.entries, key, s.history.used);
      assert EntryOk(s, found.value);
      MoveToEnd(s, key, found.value);
      var t := DoGet(s, key, now);
      forall x | x in t.entries ensures EntryOk(t, x) {
        assert x in s.entries;
        assert EntryOk(s, x);
      }
    }
  }

  lemma SetKeepsEntry<T>(c: Config, s: State<T>, key: Key, value: T, now: int, from: Option<PromiseId>, x: Entry<T>)
    requires x == Entry(key, value, now + c.ttl) || (EntryOk(s, x) && x.key != key)
    requires from.Some? ==> s.history.since <= from.value < |s.promises|
    ensures EntryOk(DoSet(c, s, key, value, now, from), x)
  {
  }

  lemma SetKeepsEntries<T>(c: Config, s: State<T>, key: Key, value: T, now: int, from: Option<PromiseId>)
    requires EntriesOk(c, s)
    requires from.Some? ==> s.history.since <= from.value < |s.promises|
    ensures EntriesOk(c, DoSet(c, s, key, value, now, from))
  {
    var e := Entry(key, value, now + c.ttl);
    var all := Without(s.entries, key) + [e];
    MoveToEnd(s, key, e);
    EvictKeepsNewest(all, c.maxEntries);
    var t := DoSet(c, s, key, value, now, from);
    forall x | x in t.entries ensures EntryOk(t, x) {
      SetKeepsEntry(c, s, key, value, now, from, x);
    }
  }

  lemma SettleKeepsInv<T>(c: Config, s: State<T>, p: PromiseId)
    requires Inv(c, s) && p < |s.promises|
    ensures Inv(c, Settle(s, p))
  {
    var t := Settle(s, p);
    forall e | e in t.entries ensures EntryOk(t, e) {
      assert EntryOk(s, e);
    }
    forall q: PromiseId | t.history.since <= q < |t.promises| && t.promises[q].pending ensures Current(t, q) {
      assert Current(s, q);
    }
  }

  lemma GetOrSetKeepsInv<T>(c: Config, s: State<T>, key: Key, now: int, throws: bool)
    requires Inv(c, s)
    ensures Inv(c, DoGetOrSet(s, key, now, throws))
  {
    GetKeepsEntries(c, s, key, now);
    var g := DoGet(s, key, now);
    var t := DoGetOrSet(s, key, now, throws);
    forall e | e in t.entries ensures EntryOk(t, e) {
      assert EntryOk(g, e);
    }
    forall q: PromiseId | t.history.since <= q < |t.promises| && t.promises[q].pending ensures Current(t, q) {
      if q < |s.promises| {
        assert Current(s, q);
      }
    }
  }

  lemma StepKeepsInv<T>(c: Config, s: State<T>, a: Action<T>)
    requires Inv(c, s)
    ensures Inv(c, Step(c, s, a))
    ensures s.history.since <= Step(c, s, a).history.since && |s.promises| <= |Step(c, s, a).promises|
  {
    match a
    case Get(key, now) =>
      GetKeepsEntries(c, s, key, now);
      InflightDoesNotReadEntries(s, Step(c, s, a));
    case Set(key, value, now) =>
      SetKeepsEntries(c, s, key, value, now, None);
      InflightDoesNotReadEntries(s, Step(c, s, a));
    case GetOrSet(key, now, throws) => GetOrSetKeepsInv(c, s, key, now, throws);
    case Resolve(p, value, now) =>
      if p < |s.promises| && s.promises[p].pending {
        if Current(s, p) {
          var t := DoSet(c, s, s.promises[p].key, value, now, Some(p));
          SetKeepsEntries(c, s, s.promises[p].key, value, now, Some(p));
          InflightDoesNotReadEntries(s, t);
          SettleKeepsInv(c, t, p);
        } else {
          SettleKeepsInv(c, s, p);
        }
      }
    case Reject(p) =>
      if p < |s.promises| && s.promises[p].pending {
        SettleKeepsInv(c, s, p);
      }
    case Clear =>
  }

  lemma InflightDoesNotReadEntries<T>(s: State<T>, t: State<T>)
    requires InflightOk(s) && t.inflight == s.inflight && t.promises == s.promises
    requires t.history.since == s.history.since
    ensures InflightOk(t)
  {
    forall p: PromiseId | t.history.since <= p < |t.promises| && t.promises[p].pending ensures Current(t, p) {
      assert Current(s, p);
    }
  }

  lemma {:induction false} RunKeepsInv<T>(c: Config, s: State<T>, acts: seq<Action<T>>)
    requires Inv(c, s)
    ensures Inv(c, Run(c, s, acts))
    ensures s.history.since <= Run(c, s, acts).history.since && |s.promises| <= |Run(c, s, acts).promises|
    decreases |acts|
  {
    if acts != [] {
      StepKeepsInv(c, s, acts[0]);
      RunKeepsInv(c, Step(c, s, acts[0]), acts[1..]);
    }
  }

  // ----- Results about every run -----

  /** What a getOrSet yields after a clear comes from no factory that started before that clear: a hit holds a
      value set since, by hand or by a promise started since, and a promise joined or started is one started since. */
  lemma NothingOldAfterClear<T>(c: Config, before: seq<Action<T>>, after: seq<Action<T>>, key: Key, now: int, throws: bool)
    ensures var s := Run(c, Initial(), before);
            var t := Run(c, Step(c, s, Clear), after);
            match OutcomeOf(t, key, now, throws)
            case Hit(v) =>
              key in t.history.origin
              && (t.history.origin[key].Some? ==> |s.promises| <= t.history.origin[key].value < |t.promises|)
            case Joined(p) => |s.promises| <= p < |t.promises| && t.promises[p] == Promise(key, true)
            case Started(p) => |s.promises| <= p == |t.promises|
            case Threw => true
  {
    RunKeepsInv(c, Initial<T>(), before);
    var s := Run(c, Initial<T>(), before);
    StepKeepsInv(c, s, Clear);
    RunKeepsInv(c, Step(c, s, Clear), after);
    var t := Run(c, Step(c, s, Clear), after);
    if Find(t.entries, key).Some? {
      assert EntryOk(t, Find(t.entries, key).value);
    }
  }

  /** A promise from before the last clear writes nothing when it settles. */
  lemma OldPromisesWriteNothing<T>(c: Config, acts: seq<Action<T>>, p: PromiseId, value: T, now: int)
    ensures var s := Run(c, Initial(), acts);
            p < s.history.since ==>
              Step(c, s, Resolve(p, value, now)).entries == s.entries
              && Step(c, s, Resolve(p, value, now)).inflight == s.inflight
              && Step(c, s, Reject(p)).inflight == s.inflight
  {
    RunKeepsInv(c, Initial<T>(), acts);
  }

  /** Since the last clear there is at most one live factory for a key, and a new one starts only when there is none. */
  lemma OneLiveFactoryPerKey<T>(c: Config, acts: seq<Action<T>>, p: PromiseId, q: PromiseId, now: int)
    ensures var s := Run(c, Initial(), acts);
            s.history.since <= p < |s.promises| && s.promises[p].pending ==>
              && (s.history.since <= q < |s.promises| && s.promises[q] == s.promises[p] ==> p == q)
              && !OutcomeOf(s, s.promises[p].key, now, false).Started?
  {
    RunKeepsInv(c, Initial<T>(), acts);
    var s := Run(c, Initial<T>(), acts);
    if s.history.since <= p < |s.promises| && s.promises[p].pending {
      assert Current(s, p);
      if s.history.since <= q < |s.promises| && s.promises[q] == s.promises[p] {
        assert Current(s, q);
      }
    }
  }

  /** Entries never outgrow the bound and stay in the order of their last use, and a hit is the value that was
      last set under its key since the clear, not yet expired. */
  lemma CacheIsBoundedAndFresh<T>(c: Config, acts: seq<Action<T>>, key: Key, now: int)
    ensures var s := Run(c, Initial(), acts);
            && |s.entries| <= Bound(c.maxEntries)
            && DistinctKeys(s.entries)
            && InRecencyOrder(s.entries, s.history.used)
            && var hit := AfterGet(s.entries, key, now).1;
               hit.Some? ==>
                 key in s.history.latest && s.history.latest[key].value == hit.value
                 && now < s.history.latest[key].expiresAt
  {
    RunKeepsInv(c, Initial<T>(), acts);
    var s := Run(c, Initial<T>(), acts);
    if Find(s.entries, key).Some? {
      assert EntryOk(s, Find(s.entries, key).value);
    }
  }

  /** What is dropped from the front was used before everything behind it. */
  lemma DroppedAreOlder<T>(all: seq<Entry<T>>, used: map<Key, nat>, n: nat, gone: Entry<T>, kept: Entry<T>)
    requires n <= |all| && InRecencyOrder(all, used)
    requires gone in all && gone !in all[n..] && kept in all[n..]
    ensures gone.key in used && kept.key in used && used[gone.key] < used[kept.key]
  {
    var i :| 0 <= i < |all| && all[i] == gone;
    var j :| 0 <= j < |all[n..]| && all[n..][j] == kept;
    assert forall k :: n <= k < |all| ==> all[k] == all[n..][k - n];
    assert i < n;
    assert all[n + j] == kept;
  }

  /** Where the entries after a set come from. */
  lemma SetIsASuffix<T>(c: Config, s: State<T>, key: Key, value: T, now: int) returns (all: seq<Entry<T>>, n: nat)
    requires EntriesOk(c, s)
    ensures n <= |all| && Step(c, s, Set(key, value, now)).entries == all[n..]
    ensures n > 0 ==> |all| - n == Bound(c.maxEntries)
    ensures InRecencyOrder(all, Step(c, s, Set(key, value, now)).history.used)
    ensures forall e :: e in s.entries && e.key != key ==> e in all
  {
    var e := Entry(key, value, now + c.ttl);
    all := Without(s.entries, key) + [e];
    n := if |all| <= Bound(c.maxEntries) then 0 else |all| - Bound(c.maxEntries);
    WithoutKeepsOthers(s.entries, key);
    MoveToEnd(s, key, e);
    EvictKeepsNewest(all, c.maxEntries);
  }

  /** A set only evicts when the cache is full, and only entries used less recently than all that stay. */
  lemma EvictionTakesTheLeastRecentlyUsed<T>(c: Config, acts: seq<Action<T>>, key: Key, value: T, now: int,
                                             gone: Entry<T>, kept: Entry<T>)
    requires var s := Run(c, Initial(), acts);
             gone in s.entries && gone.key != key && gone !in Step(c, s, Set(key, value, now)).entries
    ensures var t := Step(c, Run(c, Initial(), acts), Set(key, value, now));
            && |t.entries| == Bound(c.maxEntries)
            && (kept in t.entries ==>
                  gone.key in t.history.used && kept.key in t.history.used
                  && t.history.used[gone.key] < t.history.used[kept.key])
  {
    RunKeepsInv(c, Initial<T>(), acts);
    var s := Run(c, Initial<T>(), acts);
    var all, n := SetIsASuffix(c, s, key, value, now);
    assert all[0..] == all;
    if kept in all[n..] {
      DroppedAreOlder(all, Step(c, s, Set(key, value, now)).history.used, n, gone, kept);
    }
  }
}
