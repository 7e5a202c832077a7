/**
 The one-pass aggregate over active lots of catalog-lot-aggregates.util.ts: per key the number of lots,
 the lowest price and the latest listing date, and the lot to feature.

 A lot counts under the id of its item definition and under the key of its base name. Whether it passes
 the wear and float filters and whether it may be featured are decided elsewhere and carried as flags.
 */
module CatalogStats {
  import opened Common

  type Key = string

  datatype Lot = Lot(
    id: string,
    price: int,
    createdAt: int,
    item: Key,
    base: string,
    passesFilter: bool,
    featurable: bool)

  datatype Stat = Stat(minPrice: int, count: int, latest: int)

  function BaseKey(base: string): Key {
    "base:" + base
  }

  /** Base names share their key with no other base name. */
  lemma BaseKeysDiffer(base: string, other: string)
    ensures BaseKey(base) == BaseKey(other) ==> base == other
    ensures BaseKey(base)[..5] == "base:" && BaseKey(base)[5..] == base
  {
    assert BaseKey(base)[5..] == base && BaseKey(other)[5..] == other;
  }

  // ----- What the aggregates mean -----

  /** How often a lot counts under a key; a lot without a base name has no base statistics. */
  function Hits(lot: Lot, key: Key): nat {
    if !lot.passesFilter then 0
    else (if lot.item == key then 1 else 0) + (if lot.base != "" && BaseKey(lot.base) == key then 1 else 0)
  }

  function CountOf(lots: seq<Lot>, key: Key): nat {
    if lots == [] then 0 else CountOf(lots[..|lots| - 1], key) + Hits(lots[|lots| - 1], key)
  }

  /** No lot of the key is cheaper or newer, and one has that price and one that date. */
  ghost predicate Bounds(lots: seq<Lot>, key: Key, minPrice: int, latest: int) {
    && (forall k :: 0 <= k < |lots| && Hits(lots[k], key) > 0 ==>
          minPrice <= lots[k].price && lots[k].createdAt <= latest)
    && (exists k :: 0 <= k < |lots| && Hits(lots[k], key) > 0 && lots[k].price == minPrice)
    && (exists k :: 0 <= k < |lots| && Hits(lots[k], key) > 0 && lots[k].createdAt == latest)
  }

  ghost predicate StatOk(lots: seq<Lot>, stats: map<Key, Stat>, key: Key) {
    if key in stats
    then stats[key].count == CountOf(lots, key) && Bounds(lots, key, stats[key].minPrice, stats[key].latest)
    else CountOf(lots, key) == 0
  }

  predicate Features(lot: Lot, key: Key) {
    lot.passesFilter && lot.featurable && (lot.item == key || BaseKey(lot.base) == key)
  }

  /** The first lot that may be featured under a key. */
  function FirstFeatured(lots: seq<Lot>, key: Key): Option<Lot> {
    if lots == [] then None
    else
      var before := FirstFeatured(lots[..|lots| - 1], key);
      if before.Some? then before
      else if Features(lots[|lots| - 1], key) then Some(lots[|lots| - 1])
      else None
  }

  ghost predicate FeaturedOk(lots: seq<Lot>, featured: map<Key, string>, key: Key) {
    match FirstFeatured(lots, key)
    case None => key !in featured
    case Some(lot) => key in featured && featured[key] == lot.id
  }

  predicate PriceAscending(lots: seq<Lot>) {
    forall i, j :: 0 <= i < j < |lots| ==> lots[i].price <= lots[j].price
  }

  /** On lots in ascending price order the featured lot is a cheapest one of those that may be featured. */
  lemma {:induction false} FeaturedIsCheapest(lots: seq<Lot>, key: Key)
    requires PriceAscending(lots)
    ensures match FirstFeatured(lots, key)
            case None => forall k :: 0 <= k < |lots| ==> !Features(lots[k], key)
            case Some(lot) =>
              lot in lots && Features(lot, key)
              && forall k :: 0 <= k < |lots| && Features(lots[k], key) ==> lot.price <= lots[k].price
  {
    if lots != [] {
      FeaturedIsCheapest(lots[..|lots| - 1], key);
    }
  }

  // ----- The pass -----

  function Bumped(stats: map<Key, Stat>, key: Key, price: int, listedAt: int): map<Key, Stat> {
    if key !in stats then stats[key := Stat(price, 1, listedAt)]
    else
      var s := stats[key];
      stats[key := Stat(if price < s.minPrice then price else s.minPrice, s.count + 1,
                        if listedAt > s.latest then listedAt else s.latest)]
  }

  function AfterLot(stats: map<Key, Stat>, lot: Lot): map<Key, Stat> {
    if !lot.passesFilter then stats
    else
      var bumped := Bumped(stats, lot.item, lot.price, lot.createdAt);
      if lot.base == "" then bumped else Bumped(bumped, BaseKey(lot.base), lot.price, lot.createdAt)
  }

  lemma CountAppend(lots: seq<Lot>, lot: Lot, key: Key)
    ensures CountOf(lots + [lot], key) == CountOf(lots, key) + Hits(lot, key)
  {
    assert (lots + [lot])[..|lots|] == lots;
  }

  /** Appending a lot that does not count under the key changes nothing about the key. */
  lemma MissKeepsBounds(lots: seq<Lot>, lot: Lot, key: Key, minPrice: int, latest: int)
    requires Bounds(lots, key, minPrice, latest) && Hits(lot, key) == 0
    ensures Bounds(lots + [lot], key, minPrice, latest)
  {
    var all := lots + [lot];
    var a :| 0 <= a < |lots| && Hits(lots[a], key) > 0 && lots[a].price == minPrice;
    var b :| 0 <= b < |lots| && Hits(lots[b], key) > 0 && lots[b].createdAt == latest;
    assert all[a] == lots[a] && all[b] == lots[b];
  }

  lemma HitMovesBounds(lots: seq<Lot>, lot: Lot, key: Key, minPrice: int, latest: int)
    requires Bounds(lots, key, minPrice, latest) && Hits(lot, key) > 0
    ensures Bounds(lots + [lot], key, if lot.price < minPrice then lot.price else minPrice,
                   if lot.createdAt > latest then lot.createdAt else latest)
  {
    var all := lots + [lot];
    assert all[|lots|] == lot;
    var a :| 0 <= a < |lots| && Hits(lots[a], key) > 0 && lots[a].price == minPrice;
    var b :| 0 <= b < |lots| && Hits(lots[b], key) > 0 && lots[b].createdAt == latest;
    assert all[a] == lots[a] && all[b] == lots[b];
  }

  lemma FirstHitSetsBounds(lots: seq<Lot>, lot: Lot, key: Key)
    requires CountOf(lots, key) == 0 && Hits(lot, key) > 0
    ensures Bounds(lots + [lot], key, lot.price, lot.createdAt)
  {
    NothingCounted(lots, key);
    assert (lots + [lot])[|lots|] == lot;
  }

  /** What one lot does to the statistics of one key, even if it counts under the key twice. */
  lemma AfterLotAt(stats: map<Key, Stat>, lot: Lot, key: Key)
    ensures var after := AfterLot(stats, lot);
            && (Hits(lot, key) == 0 ==>
                  (key in after <==> key in stats) && (key in stats ==> after[key] == stats[key]))
            && (Hits(lot, key) > 0 ==>
                  key in after
                  && after[key] == if key !in stats then Stat(lot.price, Hits(lot, key), lot.createdAt)
                                   else Stat(if lot.price < stats[key].minPrice then lot.price else stats[key].minPrice,
                                             stats[key].count + Hits(lot, key),
                                             if lot.createdAt > stats[key].latest then lot.createdAt
                                             else stats[key].latest))
  {
  }

  lemma LotKeepsStats(lots: seq<Lot>, lot: Lot, stats: map<Key, Stat>, key: Key)
    requires StatOk(lots, stats, key)
    ensures StatOk(lots + [lot], AfterLot(stats, lot), key)
  {
    AfterLotAt(stats, lot, key);
    CountAppend(lots, lot, key);
    if key in stats {
      if Hits(lot, key) > 0 {
        HitMovesBounds(lots, lot, key, stats[key].minPrice, stats[key].latest);
      } else {
        MissKeepsBounds(lots, lot, key, stats[key].minPrice, stats[key].latest);
      }
    } else if Hits(lot, key) > 0 {
      FirstHitSetsBounds(lots, lot, key);
    }
  }

  lemma {:induction false} NothingCounted(lots: seq<Lot>, key: Key)
    requires CountOf(lots, key) == 0
    ensures forall k :: 0 <= k < |lots| ==> Hits(lots[k], key) == 0
  {
    if lots != [] {
      NothingCounted(lots[..|lots| - 1], key);
    }
  }

  method BumpLotStat(stats: map<Key, Stat>, key: Key, price: int, listedAt: int) returns (bumped: map<Key, Stat>)
    ensures bumped == Bumped(stats, key, price, listedAt)
  {
    if key !in stats {
      return stats[key := Stat(price, 1, listedAt)];
    }
    var current := stats[key];
    current := current.(count := current.count + 1);
    if price < current.minPrice {
      current := current.(minPrice := price);
    }
    if listedAt > current.latest {
      current := current.(latest := listedAt);
    }
    bumped := stats[key := current];
  }

  lemma LotKeepsFeatured(lots: seq<Lot>, lot: Lot, featured: map<Key, string>, after: map<Key, string>, key: Key)
    requires FeaturedOk(lots, featured, key)
    requires if Features(lot, key) && key !in featured then key in after && after[key] == lot.id
             else (key in after <==> key in featured) && (key in after ==> after[key] == featured[key])
    ensures FeaturedOk(lots + [lot], after, key)
  {
    assert (lots + [lot])[..|lots|] == lots;
  }

  /** Statistics and featured lots of one pass are, for every key, what they mean. */
  method BuildCatalogLotAggregates(lots: seq<Lot>)
    returns (lotStats: map<Key, Stat>, featuredLots: map<Key, string>)
    ensures forall key :: StatOk(lots, lotStats, key)
    ensures forall key :: FeaturedOk(lots, featuredLots, key)
  {
    lotStats, featuredLots := map[], map[];
    for i := 0 to |lots|
      invariant forall key :: StatOk(lots[..i], lotStats, key)
      invariant forall key :: FeaturedOk(lots[..i], featuredLots, key)
    {
      var lot := lots[i];
      ghost var seen := lots[..i];
      ghost var stats, featured := lotStats, featuredLots;
      ghost var upTo := lots[..i + 1];
      assert upTo == seen + [lot];
      forall key ensures StatOk(upTo, AfterLot(stats, lot), key) {
        LotKeepsStats(seen, lot, stats, key);
      }
      if !lot.passesFilter {
        assert AfterLot(stats, lot) == lotStats;
        forall key ensures FeaturedOk(upTo, featured, key) {
          LotKeepsFeatured(seen, lot, featured, featured, key);
        }
        continue;
      }
      lotStats := BumpLotStat(lotStats, lot.item, lot.price, lot.createdAt);
      if lot.base != "" {
        lotStats := BumpLotStat(lotStats, BaseKey(lot.base), lot.price, lot.createdAt);
      }
      assert lotStats == AfterLot(stats, lot);
      if lot.featurable {
        if lot.item !in featuredLots {
          featuredLots := featuredLots[lot.item := lot.id];
        }
        if BaseKey(lot.base) !in featuredLots {
          featuredLots := featuredLots[BaseKey(lot.base) := lot.id];
        }
      }
      forall key ensures FeaturedOk(upTo, featuredLots, key) {
        LotKeepsFeatured(seen, lot, featured, featuredLots, key);
      }
    }
    assert lots[..|lots|] == lots;
  }
}
