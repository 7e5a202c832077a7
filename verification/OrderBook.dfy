/**
 Bid depth, computed twice in the repository: the level list of one item (order-book.util.ts) and the
 best bid of many items in one pass (inventory.service.ts, loadBestBids).
 */
module OrderBook {
  import opened Common

  datatype Request = Request(name: string, maxPrice: Option<int>, quantity: int, filled: int)
  datatype Level = Level(price: int, quantity: int)

  function Remaining(r: Request): int {
    r.quantity - r.filled
  }

  /** Requests without a positive price or without anything left to fill are skipped. */
  predicate Bids(r: Request) {
    r.maxPrice.Some? && r.maxPrice.value > 0 && Remaining(r) > 0
  }

  // ----- What a book is -----

  /** What is still wanted at a price. */
  function Depth(rs: seq<Request>, price: int): int {
    if rs == [] then 0
    else
      var r := rs[|rs| - 1];
      Depth(rs[..|rs| - 1], price) + if Bids(r) && r.maxPrice.value == price then Remaining(r) else 0
  }

  /** What is still wanted at any price. */
  function TotalWanted(rs: seq<Request>): int {
    if rs == [] then 0
    else
      var r := rs[|rs| - 1];
      TotalWanted(rs[..|rs| - 1]) + if Bids(r) then Remaining(r) else 0
  }

  predicate Descending(levels: seq<Level>) {
    forall i, j :: 0 <= i < j < |levels| ==> levels[i].price > levels[j].price
  }

  /** The levels are the prices at which something is wanted, best first, each with its whole depth. */
  ghost predicate IsBook(rs: seq<Request>, levels: seq<Level>) {
    && Descending(levels)
    && (forall k :: 0 <= k < |levels| ==> levels[k].quantity == Depth(rs, levels[k].price) && levels[k].quantity > 0)
    && (forall price :: Depth(rs, price) > 0 ==> exists k :: 0 <= k < |levels| && levels[k].price == price)
  }

  /** A book is determined by its requests. */
  lemma BooksAgree(rs: seq<Request>, levels: seq<Level>, others: seq<Level>)
    requires IsBook(rs, levels) && IsBook(rs, others)
    ensures levels == others
  {
    DescendingAgree(levels, others);
  }

  predicate SubLevels(levels: seq<Level>, others: seq<Level>) {
    forall k :: 0 <= k < |levels| ==> levels[k] in others
  }

  lemma HeadsAgree(levels: seq<Level>, others: seq<Level>)
    requires Descending(levels) && Descending(others) && SubLevels(levels, others) && SubLevels(others, levels)
    ensures levels == [] <==> others == []
    ensures levels != [] ==> levels[0] == others[0]
  {
    assert levels != [] ==> levels[0] in others;
    assert others != [] ==> others[0] in levels;
  }

  lemma TailsAgree(levels: seq<Level>, others: seq<Level>)
    requires Descending(levels) && SubLevels(levels, others)
    requires levels != [] && others != [] && levels[0] == others[0]
    ensures SubLevels(levels[1..], others[1..])
  {
    forall k | 0 <= k < |levels[1..]| ensures levels[1..][k] in others[1..] {
      var j :| 0 <= j < |others| && others[j] == levels[k + 1];
      assert levels[0].price > levels[k + 1].price;
      assert others[1..][j - 1] == levels[k + 1];
    }
  }

  lemma {:induction false} DescendingAgree(levels: seq<Level>, others: seq<Level>)
    requires Descending(levels) && Descending(others) && SubLevels(levels, others) && SubLevels(others, levels)
    ensures levels == others
  {
    HeadsAgree(levels, others);
    if levels != [] {
      TailsAgree(levels, others);
      TailsAgree(others, levels);
      DescendingAgree(levels[1..], others[1..]);
      assert levels == [levels[0]] + levels[1..] && others == [others[0]] + others[1..];
    }
  }

  // ----- The quantities of a book add up to everything wanted -----

  function Quantities(levels: seq<Level>): int {
    if levels == [] then 0 else levels[0].quantity + Quantities(levels[1..])
  }

  function WithoutPrice(rs: seq<Request>, price: int): seq<Request> {
    if rs == [] then []
    else
      var r := rs[|rs| - 1];
      WithoutPrice(rs[..|rs| - 1], price) + if Bids(r) && r.maxPrice.value == price then [] else [r]
  }

  lemma {:induction false} WithoutPriceTakesItsDepth(rs: seq<Request>, price: int, other: int)
    ensures TotalWanted(rs) == Depth(rs, price) + TotalWanted(WithoutPrice(rs, price))
    ensures Depth(WithoutPrice(rs, price), other) == if other == price then 0 else Depth(rs, other)
  {
    if rs != [] {
      var init, r := rs[..|rs| - 1], rs[|rs| - 1];
      WithoutPriceTakesItsDepth(init, price, other);
      var rest := WithoutPrice(init, price);
      assert (rest + [r])[..|rest|] == rest;
      assert rest + [] == rest;
    }
  }

  lemma {:induction false} NothingWanted(rs: seq<Request>)
    requires forall price :: Depth(rs, price) <= 0
    ensures TotalWanted(rs) == 0
    decreases |rs|
  {
    if rs != [] {
      var init, r := rs[..|rs| - 1], rs[|rs| - 1];
      forall price ensures Depth(init, price) <= 0 {
        assert Depth(rs, price) >= Depth(init, price);
      }
      NothingWanted(init);
      var price := r.maxPrice.GetOr(0);
      DepthIsNatural(init, price);
      assert Depth(rs, price) <= 0;
    }
  }

  lemma {:induction false} DepthIsNatural(rs: seq<Request>, price: int)
    ensures Depth(rs, price) >= 0
  {
    if rs != [] {
      DepthIsNatural(rs[..|rs| - 1], price);
    }
  }

  /** Without its best price, a book is the book of the other requests. */
  lemma RestIsBook(rs: seq<Request>, levels: seq<Level>)
    requires IsBook(rs, levels) && levels != []
    ensures IsBook(WithoutPrice(rs, levels[0].price), levels[1..])
  {
    var price := levels[0].price;
    var rest, tail := WithoutPrice(rs, price), levels[1..];
    forall k | 0 <= k < |tail| ensures tail[k].quantity == Depth(rest, tail[k].price) && tail[k].quantity > 0 {
      WithoutPriceTakesItsDepth(rs, price, levels[k + 1].price);
    }
    forall other | Depth(rest, other) > 0 ensures exists k :: 0 <= k < |tail| && tail[k].price == other {
      WithoutPriceTakesItsDepth(rs, price, other);
      var k :| 0 <= k < |levels| && levels[k].price == other;
      assert tail[k - 1].price == other;
    }
  }

  lemma {:induction false} BookAddsUp(rs: seq<Request>, levels: seq<Level>)
    requires IsBook(rs, levels)
    ensures Quantities(levels) == TotalWanted(rs)
    decreases |levels|
  {
    if levels == [] {
      NothingWanted(rs);
    } else {
      RestIsBook(rs, levels);
      WithoutPriceTakesItsDepth(rs, levels[0].price, levels[0].price);
      BookAddsUp(WithoutPrice(rs, levels[0].price), levels[1..]);
    }
  }

  // ----- aggregateBidLevels -----

  function Insert(level: Level, levels: seq<Level>): seq<Level> {
    if levels == [] || level.price >= levels[0].price then [level] + levels
    else [levels[0]] + Insert(level, levels[1..])
  }

  /** The sort by descending price. */
  function SortDescending(levels: seq<Level>): seq<Level> {
    if levels == [] then [] else Insert(levels[0], SortDescending(levels[1..]))
  }

  lemma {:induction false} InsertSorts(level: Level, levels: seq<Level>)
    requires Descending(levels) && forall k :: 0 <= k < |levels| ==> levels[k].price != level.price
    ensures Descending(Insert(level, levels))
    ensures forall x :: x in Insert(level, levels) <==> x == level || x in levels
  {
    if levels != [] && level.price < levels[0].price {
      InsertSorts(level, levels[1..]);
      var rest := Insert(level, levels[1..]);
      forall j | 0 <= j < |rest| ensures levels[0].price > rest[j].price {
        assert rest[j] in rest;
        if rest[j] != level {
          var k :| 0 <= k < |levels[1..]| && levels[1..][k] == rest[j];
          assert levels[k + 1] == rest[j];
        }
      }
    }
  }

  lemma {:induction false} SortSorts(levels: seq<Level>)
    requires forall i, j :: 0 <= i < j < |levels| ==> levels[i].price != levels[j].price
    ensures Descending(SortDescending(levels))
    ensures forall x :: x in SortDescending(levels) <==> x in levels
  {
    if levels != [] {
      SortSorts(levels[1..]);
      var rest := SortDescending(levels[1..]);
      forall k | 0 <= k < |rest| ensures rest[k].price != levels[0].price {
        assert rest[k] in levels[1..];
      }
      InsertSorts(levels[0], rest);
    }
  }

  /** The entries of a Map, in the order in which its keys were first set. */
  function Entries(order: seq<int>, levels: map<int, int>): seq<Level>
    requires forall k :: 0 <= k < |order| ==> order[k] in levels
  {
    seq(|order|, k requires 0 <= k < |order| => Level(order[k], levels[order[k]]))
  }

  method AggregateBidLevels(requests: seq<Request>) returns (book: seq<Level>)
    ensures IsBook(requests, book)
    ensures Quantities(book) == TotalWanted(requests)
  {
    var levels: map<int, int> := map[];
    var order: seq<int> := [];
    for i := 0 to |requests|
      invariant forall price :: price in levels <==> Depth(requests[..i], price) > 0
      invariant forall price :: price in levels ==> levels[price] == Depth(requests[..i], price)
      invariant forall j, k :: 0 <= j < k < |order| ==> order[j] != order[k]
      invariant forall price :: price in order <==> price in levels
    {
      var r := requests[i];
      assert requests[..i + 1][..i] == requests[..i];
      if r.maxPrice.None? || r.maxPrice.value <= 0 {
        continue;
      }
      var remaining := r.quantity - r.filled;
      if remaining <= 0 {
        continue;
      }
      var key := r.maxPrice.value;
      DepthIsNatural(requests[..i], key);
      if key !in levels {
        order := order + [key];
      }
      levels := levels[key := (if key in levels then levels[key] else 0) + remaining];
    }
    assert requests[..|requests|] == requests;
    var entries := Entries(order, levels);
    book := SortDescending(entries);
    SortSorts(entries);
    forall price | Depth(requests, price) > 0 ensures exists k :: 0 <= k < |book| && book[k].price == price {
      var j :| 0 <= j < |order| && order[j] == price;
      assert entries[j] in book;
    }
    forall k | 0 <= k < |book|
      ensures book[k].quantity == Depth(requests, book[k].price) && book[k].quantity > 0
    {
      assert book[k] in entries;
    }
    BookAddsUp(requests, book);
  }

  // ----- loadBestBids -----

  function OfName(rs: seq<Request>, name: string): seq<Request> {
    if rs == [] then []
    else
      var r := rs[|rs| - 1];
      OfName(rs[..|rs| - 1], name) + if r.name == name then [r] else []
  }

  /** The best level of some requests: nothing is wanted at a higher price, and it has the whole depth. */
  ghost predicate IsBest(rs: seq<Request>, best: Level) {
    && best.quantity == Depth(rs, best.price) && best.quantity > 0
    && forall price :: Depth(rs, price) > 0 ==> price <= best.price
  }

  ghost predicate BestOrNone(rs: seq<Request>, best: map<string, Level>, name: string) {
    if name in best then IsBest(rs, best[name]) else forall price :: Depth(rs, price) <= 0
  }

  lemma OneMore(rs: seq<Request>, i: nat, name: string, price: int)
    requires i < |rs|
    ensures Depth(OfName(rs[..i + 1], name), price)
            == Depth(OfName(rs[..i], name), price)
               + if rs[i].name == name && Bids(rs[i]) && rs[i].maxPrice.value == price then Remaining(rs[i]) else 0
    ensures Depth(OfName(rs[..i], name), price) >= 0
  {
    assert rs[..i + 1][..i] == rs[..i];
    var before := OfName(rs[..i], name);
    assert (before + [rs[i]])[..|before|] == before;
    assert before + [] == before;
    DepthIsNatural(before, price);
  }

  /** What one request does to the best bids. */
  function NextBest(best: map<string, Level>, r: Request): map<string, Level> {
    if !Bids(r) then best
    else if r.name !in best || r.maxPrice.value > best[r.name].price
    then best[r.name := Level(r.maxPrice.value, Remaining(r))]
    else if r.maxPrice.value == best[r.name].price
    then best[r.name := Level(r.maxPrice.value, best[r.name].quantity + Remaining(r))]
    else best
  }

  lemma NextBestIsBest(rs: seq<Request>, i: nat, best: map<string, Level>, name: string)
    requires i < |rs| && BestOrNone(OfName(rs[..i], name), best, name)
    ensures BestOrNone(OfName(rs[..i + 1], name), NextBest(best, rs[i]), name)
  {
    var before, after := OfName(rs[..i], name), OfName(rs[..i + 1], name);
    var r := rs[i];
    var mine := r.name == name && Bids(r);
    forall price
      ensures Depth(after, price)
              == Depth(before, price) + (if mine && r.maxPrice.value == price then Remaining(r) else 0)
      ensures Depth(before, price) >= 0
    {
      OneMore(rs, i, name, price);
    }
    if mine {
      assert Depth(after, r.maxPrice.value) > 0;
    }
  }

  /** `best` answers for `name` what the first level of its book says. */
  predicate HeadsBook(best: map<string, Level>, name: string, book: seq<Level>) {
    (name in best <==> book != []) && (name in best ==> best[name] == book[0])
  }

  lemma BestHeadsTheBook(rs: seq<Request>, best: map<string, Level>, name: string, book: seq<Level>)
    requires BestOrNone(rs, best, name) && IsBook(rs, book)
    ensures HeadsBook(best, name, book)
  {
  }

  /** One pass over the requests of all names agrees with the level list of each: the best bid of a name is
      the first level of the book of its requests. */
  method LoadBestBids(requests: seq<Request>) returns (best: map<string, Level>)
    ensures forall name, book :: IsBook(OfName(requests, name), book) ==> HeadsBook(best, name, book)
  {
    best := map[];
    for i := 0 to |requests|
      invariant forall name :: BestOrNone(OfName(requests[..i], name), best, name)
    {
      var r := requests[i];
      ghost var upTo := requests[..i + 1];
      forall name ensures BestOrNone(OfName(upTo, name), NextBest(best, r), name) {
        NextBestIsBest(requests, i, best, name);
      }
      if r.maxPrice.None? || r.maxPrice.value <= 0 {
        continue;
      }
      var remaining := r.quantity - r.filled;
      if remaining <= 0 {
        continue;
      }
      if r.name !in best || r.maxPrice.value > best[r.name].price {
        best := best[r.name := Level(r.maxPrice.value, remaining)];
        continue;
      }
      if r.maxPrice.value == best[r.name].price {
        best := best[r.name := best[r.name].(quantity := best[r.name].quantity + remaining)];
      }
    }
    assert requests[..|requests|] == requests;
    forall name, book | IsBook(OfName(requests, name), book) ensures HeadsBook(best, name, book) {
      BestHeadsTheBook(OfName(requests, name), best, name, book);
    }
  }
}
