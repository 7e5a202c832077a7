/**
 Unique item slugs (item-slug.util.ts, item-slug-backfill.service.ts): the base slug if it is free, else
 the base with the least number from 2 on that is free.
 */
module Slugs {
  import opened Common

  // ----- Numbered names -----

  function Digit(d: nat): char
    requires d < 10
  {
    "0123456789"[d]
  }

  /** The decimal text of a number, without leading zeros. */
  function Decimal(n: nat): string {
    if n < 10 then [Digit(n)] else Decimal(n / 10) + [Digit(n % 10)]
  }

  /** The number that a text of digits stands for. */
  function ReadNumber(s: string): int {
    if s == "" then 0 else 10 * ReadNumber(s[..|s| - 1]) + (s[|s| - 1] as int - '0' as int)
  }

  /** The text of a number reads back as it, in digits, and does not begin with a zero unless it is zero. */
  lemma {:induction false} DecimalReadsBack(n: nat)
    ensures ReadNumber(Decimal(n)) == n
    ensures forall ch :: ch in Decimal(n) ==> '0' <= ch <= '9'
    ensures Decimal(n) != "" && (Decimal(n)[0] == '0' <==> n == 0)
  {
    var s := Decimal(n);
    if n >= 10 {
      DecimalReadsBack(n / 10);
      assert s[..|s| - 1] == Decimal(n / 10);
    } else {
      assert s[..0] == "";
    }
  }

  /** A numbered name is the base, a hyphen and the number. */
  lemma NumberedNameReads(base: string, n: nat)
    ensures var s := Numbered(base, n);
            && |base| < |s| && s[..|base|] == base && s[|base|] == '-'
            && ReadNumber(s[|base| + 1..]) == n && s[|base| + 1..] == Decimal(n)
  {
    DecimalReadsBack(n);
    assert Numbered(base, n)[|base| + 1..] == Decimal(n);
  }

  lemma {:induction false} DecimalIsInjective(m: nat, n: nat)
    requires Decimal(m) == Decimal(n)
    ensures m == n
  {
    var s, t := Decimal(m), Decimal(n);
    assert s[|s| - 1] == Digit(m % 10) && t[|t| - 1] == Digit(n % 10);
    if m >= 10 && n >= 10 {
      assert Decimal(m / 10) == s[..|s| - 1] && Decimal(n / 10) == t[..|t| - 1];
      DecimalIsInjective(m / 10, n / 10);
    } else {
      DecimalLength(m);
      DecimalLength(n);
    }
  }

  lemma DecimalLength(n: nat)
    ensures |Decimal(n)| == 1 <==> n < 10
  {
  }

  function Numbered(base: string, n: nat): string {
    base + "-" + Decimal(n)
  }

  lemma NumberedIsInjective(base: string, m: nat, n: nat)
    requires Numbered(base, m) == Numbered(base, n)
    ensures m == n
  {
    var k := |base| + 1;
    assert Decimal(m) == Numbered(base, m)[k..] && Decimal(n) == Numbered(base, n)[k..];
    DecimalIsInjective(m, n);
  }

  // ----- resolveUniqueItemSlug -----

  /** The numbered names from 2 up to, but not including, `n`. */
  ghost function Tried(base: string, n: nat): set<string> {
    set i: nat | 2 <= i < n :: Numbered(base, i)
  }

  lemma {:induction false} TriedCount(base: string, n: nat)
    requires n >= 2
    ensures |Tried(base, n)| == n - 2
  {
    if n == 2 {
      assert Tried(base, n) == {};
    } else {
      TriedCount(base, n - 1);
      forall i: nat | 2 <= i < n - 1 ensures Numbered(base, i) != Numbered(base, n - 1) {
        if Numbered(base, i) == Numbered(base, n - 1) {
          NumberedIsInjective(base, i, n - 1);
        }
      }
      assert Numbered(base, n - 1) !in Tried(base, n - 1);
      assert Tried(base, n) == Tried(base, n - 1) + {Numbered(base, n - 1)};
    }
  }

  lemma {:induction false} SubsetSize(a: set<string>, b: set<string>)
    requires a <= b
    ensures |a| <= |b|
  {
    if a != {} {
      var x :| x in a;
      SubsetSize(a - {x}, b - {x});
    }
  }

  /** The slug for a base: free, and the base itself or its least free number. */
  ghost predicate IsSlugFor(base: string, reserved: set<string>, slug: string) {
    && slug !in reserved
    && (if base !in reserved then slug == base
        else exists n: nat :: n >= 2 && slug == Numbered(base, n) && Tried(base, n) <= reserved)
  }

  /** However many names are reserved, the search ends: the tried names are distinct and all reserved. */
  method ResolveUniqueItemSlug(base: string, reserved: set<string>) returns (slug: string)
    ensures IsSlugFor(base, reserved, slug)
  {
    if base !in reserved {
      return base;
    }
    var index := 2;
    while Numbered(base, index) in reserved
      invariant index >= 2 && Tried(base, index) <= reserved
      decreases |reserved| + 2 - index
    {
      index := index + 1;
      assert Tried(base, index) == Tried(base, index - 1) + {Numbered(base, index - 1)};
      TriedCount(base, index);
      SubsetSize(Tried(base, index), reserved);
    }
    slug := Numbered(base, index);
  }

  /** The answer is determined, so allocation is reproducible. */
  lemma SlugIsDetermined(base: string, reserved: set<string>, slug: string, other: string)
    requires IsSlugFor(base, reserved, slug) && IsSlugFor(base, reserved, other)
    ensures slug == other
  {
    if base in reserved {
      var m: nat :| m >= 2 && slug == Numbered(base, m) && Tried(base, m) <= reserved;
      var n: nat :| n >= 2 && other == Numbered(base, n) && Tried(base, n) <= reserved;
      assert forall i: nat :: 2 <= i < n ==> Numbered(base, i) in Tried(base, n);
      assert forall i: nat :: 2 <= i < m ==> Numbered(base, i) in Tried(base, m);
      assert m == n;
    }
  }

  // ----- The backfill -----

  datatype Item = Item(base: string, slug: Option<string>)

  /** No two items share a slug. */
  predicate DistinctSlugs(items: seq<Item>) {
    forall i, j :: 0 <= i < j < |items| && items[i].slug.Some? ==> items[i].slug != items[j].slug
  }

  predicate NamesMissing(items: seq<Item>, missing: seq<nat>) {
    && (forall k :: 0 <= k < |missing| ==> missing[k] < |items| && items[missing[k]].slug.None?)
    && (forall j, k :: 0 <= j < k < |missing| ==> missing[j] != missing[k])
    && (forall i :: 0 <= i < |items| && items[i].slug.None? ==> i in missing)
  }

  /** Every slug in use that the query for existing slugs returns; it drops empty ones. */
  function Reserved(items: seq<Item>): set<string> {
    set i | 0 <= i < |items| && items[i].slug.Some? && items[i].slug.value != "" :: items[i].slug.value
  }

  /** The slugs in use when the `k`-th missing one is allocated: those there were, and those given out before. */
  ghost function Taken(was: seq<Item>, items: seq<Item>, missing: seq<nat>, k: nat): set<string>
    requires k <= |missing| && forall j :: 0 <= j < |missing| ==> missing[j] < |items|
  {
    Reserved(was) + set j | 0 <= j < k && items[missing[j]].slug.Some? :: items[missing[j]].slug.value
  }

  /** The `k`-th missing slug was allocated for its item's own base. */
  ghost predicate AllocatedAt(was: seq<Item>, items: seq<Item>, missing: seq<nat>, k: nat)
    requires k < |missing| && forall j :: 0 <= j < |missing| ==> missing[j] < |items|
  {
    && items[missing[k]].slug.Some?
    && IsSlugFor(items[missing[k]].base, Taken(was, items, missing, k), items[missing[k]].slug.value)
  }

  ghost predicate Allocated(was: seq<Item>, items: seq<Item>, missing: seq<nat>, n: nat)
    requires n <= |missing| && forall j :: 0 <= j < |missing| ==> missing[j] < |items|
  {
    forall k :: 0 <= k < n ==> AllocatedAt(was, items, missing, k)
  }

  lemma TakenIsStable(was: seq<Item>, items: seq<Item>, after: seq<Item>, missing: seq<nat>, k: nat)
    requires k <= |missing| && |after| == |items| && forall j :: 0 <= j < |missing| ==> missing[j] < |items|
    requires forall j :: 0 <= j < k ==> after[missing[j]] == items[missing[j]]
    ensures Taken(was, after, missing, k) == Taken(was, items, missing, k)
  {
  }

  lemma TakenGrows(was: seq<Item>, items: seq<Item>, missing: seq<nat>, n: nat, slug: string)
    requires n < |missing| && (forall j :: 0 <= j < |missing| ==> missing[j] < |items|)
    requires items[missing[n]].slug == Some(slug)
    ensures Taken(was, items, missing, n + 1) == Taken(was, items, missing, n) + {slug}
  {
  }

  lemma AllocationStays(was: seq<Item>, items: seq<Item>, after: seq<Item>, missing: seq<nat>, k: nat)
    requires k < |missing| && |after| == |items| && forall j :: 0 <= j < |missing| ==> missing[j] < |items|
    requires forall j :: 0 <= j <= k ==> after[missing[j]] == items[missing[j]]
    requires AllocatedAt(was, items, missing, k)
    ensures AllocatedAt(was, after, missing, k)
  {
    TakenIsStable(was, items, after, missing, k);
  }

  lemma AllocationGoesOn(was: seq<Item>, items: seq<Item>, after: seq<Item>, missing: seq<nat>, n: nat, slug: string)
    requires n < |missing| && (forall j :: 0 <= j < |missing| ==> missing[j] < |items|)
    requires forall j, k :: 0 <= j < k < |missing| ==> missing[j] != missing[k]
    requires after == items[missing[n] := items[missing[n]].(slug := Some(slug))]
    requires Allocated(was, items, missing, n) && IsSlugFor(items[missing[n]].base, Taken(was, items, missing, n), slug)
    ensures Allocated(was, after, missing, n + 1)
    ensures Taken(was, after, missing, n + 1) == Taken(was, items, missing, n) + {slug}
  {
    assert forall j :: 0 <= j < n ==> after[missing[j]] == items[missing[j]];
    forall k | 0 <= k < n ensures AllocatedAt(was, after, missing, k) {
      AllocationStays(was, items, after, missing, k);
    }
    TakenIsStable(was, items, after, missing, n);
    TakenGrows(was, after, missing, n, slug);
    assert AllocatedAt(was, after, missing, n);
  }

  lemma UpdateReserves(items: seq<Item>, i: nat, slug: string)
    requires i < |items| && items[i].slug.None? && DistinctSlugs(items)
    requires slug != "" && slug !in Reserved(items)
    ensures var after := items[i := items[i].(slug := Some(slug))];
            DistinctSlugs(after) && Reserved(after) == Reserved(items) + {slug}
  {
    var after := items[i := items[i].(slug := Some(slug))];
    forall k | 0 <= k < |items| && items[k].slug.Some? ensures items[k].slug.value != slug {
      assert items[k].slug.value != "" ==> items[k].slug.value in Reserved(items);
    }
    forall x | x in Reserved(items) + {slug} ensures x in Reserved(after) {
      if x != slug {
        var k :| 0 <= k < |items| && items[k].slug == Some(x) && x != "";
        assert after[k].slug == Some(x);
      } else {
        assert after[i].slug == Some(x);
      }
    }
  }

  /** What the loop has done after `n` of the missing slugs: those, and nothing else. */
  ghost predicate Filled(was: seq<Item>, items: seq<Item>, missing: seq<nat>, n: nat) {
    && NamesMissing(was, missing) && n <= |missing| && |items| == |was| && DistinctSlugs(items)
    && (forall i :: 0 <= i < |was| ==> items[i].base == was[i].base)
    && (forall i :: 0 <= i < |was| && i !in missing[..n] ==> items[i] == was[i])
    && Allocated(was, items, missing, n) && Reserved(items) == Taken(was, items, missing, n)
  }

  lemma FillsOne(was: seq<Item>, items: seq<Item>, missing: seq<nat>, n: nat, slug: string, after: seq<Item>)
    requires Filled(was, items, missing, n) && n < |missing| && slug != ""
    requires IsSlugFor(items[missing[n]].base, Reserved(items), slug)
    requires after == items[missing[n] := items[missing[n]].(slug := Some(slug))]
    ensures Filled(was, after, missing, n + 1) && Reserved(after) == Reserved(items) + {slug}
  {
    assert missing[n] !in missing[..n];
    UpdateReserves(items, missing[n], slug);
    AllocationGoesOn(was, items, after, missing, n, slug);
    assert missing[..n + 1] == missing[..n] + [missing[n]];
  }

  lemma AllAreFilled(was: seq<Item>, items: seq<Item>, missing: seq<nat>)
    requires Filled(was, items, missing, |missing|)
    ensures forall i :: 0 <= i < |was| ==>
              items[i].slug.Some? && (was[i].slug.Some? ==> items[i].slug == was[i].slug)
  {
    assert missing[..|missing|] == missing;
    forall i | 0 <= i < |was| && i in missing ensures items[i].slug.Some? {
      var k :| 0 <= k < |missing| && missing[k] == i;
      assert AllocatedAt(was, items, missing, k);
    }
  }

  class ItemTable {
    var items: seq<Item>

    /** Gives every item a slug of its own base: those that had one keep it, and all are distinct if they were before. */
    method BackfillMissingSlugs(missing: seq<nat>) returns (updated: nat)
      requires NamesMissing(items, missing) && DistinctSlugs(items)
      requires forall i :: 0 <= i < |items| ==> items[i].base != ""
      modifies this
      ensures updated == |missing|
      ensures |items| == |old(items)| && DistinctSlugs(items)
      ensures forall i :: 0 <= i < |items| ==>
                items[i].base == old(items)[i].base && items[i].slug.Some?
                && (old(items)[i].slug.Some? ==> items[i].slug == old(items)[i].slug)
      ensures Allocated(old(items), items, missing, |missing|)
    {
      var reserved := Reserved(items);
      updated := 0;
      while updated < |missing|
        invariant 0 <= updated <= |missing|
        invariant reserved == Reserved(items) && Filled(old(items), items, missing, updated)
      {
        var i := missing[updated];
        var slug := ResolveUniqueItemSlug(items[i].base, reserved);
        assert slug != "";
        reserved := reserved + {slug};
        ghost var before := items;
        items := items[i := items[i].(slug := Some(slug))];
        FillsOne(old(items), before, missing, updated, slug, items);
        updated := updated + 1;
      }
      AllAreFilled(old(items), items, missing);
    }
  }
}
