/** What single buy-request calls admit and leave, on the fields alone, and that no run makes or loses money. */
module BuyRequestLaws {
  import opened Common
  import opened BuyRequests
  import opened BuyRequestProofs

  // ----- Money stays with its user -----

  lemma CommitKeepsBalance(d: Tables, call: Call, u: UserId)
    requires Commit(d, call).Some? && u < |d.wallets|
    ensures var e := Commit(d, call).value;
            && |e.wallets| == |d.wallets|
            && e.wallets[u].available + e.wallets[u].held == d.wallets[u].available + d.wallets[u].held
            && e.wallets[u].orders == d.wallets[u].orders
  {
  }

  /** Reserving, filling, cancelling, expiring and purchases only move money between a user's own two accounts. */
  lemma {:induction false} BalancesStay(s: State, acts: seq<Action>, u: UserId)
    requires u < |s.d.wallets|
    ensures var t := Run(s, acts);
            && |t.d.wallets| == |s.d.wallets|
            && t.d.wallets[u].available + t.d.wallets[u].held == s.d.wallets[u].available + s.d.wallets[u].held
    decreases |acts|
  {
    if acts != [] {
      var a := acts[0];
      if a.Finish? && a.call in s.inFlight && Commit(s.d, a.call).Some? {
        CommitKeepsBalance(s.d, a.call, u);
      }
      BalancesStay(Step(s, a), acts[1..], u);
    }
  }

  ghost predicate Solvent(d: Tables) {
    forall u :: 0 <= u < |d.wallets| ==> d.wallets[u].available >= 0 && d.wallets[u].held >= 0
  }

  lemma CommitIsSolvent(d: Tables, call: Call)
    requires Solvent(d) && Commit(d, call).Some?
    ensures Solvent(Commit(d, call).value)
  {
  }

  /** In every run no available balance and no hold account is ever overdrawn. */
  lemma {:induction false} NoWalletIsOverdrawn(s: State, acts: seq<Action>)
    requires Inv(s) && Solvent(s.d)
    ensures Solvent(Run(s, acts).d)
    decreases |acts|
  {
    if acts != [] {
      var a := acts[0];
      StepKeepsInv(s, a);
      if a.Finish? && a.call in s.inFlight && Commit(s.d, a.call).Some? {
        CommitIsSolvent(s.d, a.call);
      } else if a.OrderMoney? && a.user < |s.d.wallets| {
        NothingReservedIsNegative(Step(s, a).d, |s.d.requests|, a.user);
        assert Step(s, a).d.requests[..|s.d.requests|] == Step(s, a).d.requests;
      }
      NoWalletIsOverdrawn(Step(s, a), acts[1..]);
    }
  }

  lemma {:induction false} NothingReservedIsNegative(d: Tables, n: nat, u: UserId)
    requires TablesOk(d) && n <= |d.requests|
    ensures ReservedBy(d.requests[..n], u) >= 0
  {
    if n > 0 {
      assert RowOk(d, n - 1);
      assert d.requests[..n][..n - 1] == d.requests[..n - 1];
      if d.requests[n - 1].status.Open? {
        RestIsPositive(d.requests[n - 1]);
      }
      NothingReservedIsNegative(d, n - 1, u);
    }
  }

  // ----- New requests -----

  /** A new request goes through exactly if its buyer has the whole price, which is then reserved under its key. */
  lemma NewRequestReserves(d: Tables, buyer: UserId, item: string, maxPrice: int, quantity: int)
    requires TablesOk(d)
    ensures var r := CommitCreate(d, buyer, item, maxPrice, quantity);
            var amount := maxPrice * quantity;
            && (r.Some? <==> buyer < |d.wallets| && 0 < amount <= d.wallets[buyer].available)
            && (r.Some? ==>
                  var w := d.wallets[buyer];
                  r.value == Tables(d.requests + [Request(buyer, item, maxPrice, quantity, 0, amount, Open)],
                                    d.wallets[buyer := Wallet(w.available - amount, w.held + amount, w.orders)],
                                    d.entries[(buyer, ReserveKey(|d.requests|)) := amount]))
  {
  }

  /** A request is asked for in a quantity of 1 to 99, and not twice for one item at one price while it is open. */
  lemma AskIsAdmittedExactly(s: State, buyer: UserId, item: string, maxPrice: int, quantity: int)
    ensures Step(s, BeginCreate(buyer, item, maxPrice, quantity))
            == if && buyer < |s.d.wallets| && 1 <= quantity <= 99
                  && forall r :: r in s.d.requests ==>
                       (r.status, r.buyer, r.item, r.maxPrice) != (Open, buyer, item, maxPrice)
               then s.(inFlight := s.inFlight + multiset{Create(buyer, item, maxPrice, quantity)})
               else s
  {
    var rs := s.d.requests;
    assert (forall r :: r in rs ==> (r.status, r.buyer, r.item, r.maxPrice) != (Open, buyer, item, maxPrice))
           <==> forall i :: 0 <= i < |rs| ==> !SameOpen(rs[i], buyer, item, maxPrice);
  }

  // ----- Purchases -----

  /** The buyer's open requests for the item that pay the price and want more. */
  predicate Wanted(r: Request, buyer: UserId, item: string, price: int) {
    (r.buyer, r.item, r.status) == (buyer, item, Open) && price <= r.maxPrice && r.filled < r.quantity
  }

  /** A purchase takes a request exactly if it is one of those and none of those pays more. */
  lemma PurchaseTakesTheBest(s: State, buyer: UserId, item: string, price: int, id: RequestId)
    ensures Step(s, BeginFulfill(buyer, item, price, id))
            == if && id < |s.d.requests| && Wanted(s.d.requests[id], buyer, item, price)
                  && forall r :: r in s.d.requests && Wanted(r, buyer, item, price) ==> r.maxPrice <= s.d.requests[id].maxPrice
               then s.(inFlight := s.inFlight + multiset{Fulfill(id, s.d.requests[id])})
               else s
  {
    var rs := s.d.requests;
    forall r | r in rs ensures Fillable(r, buyer, item, price) <==> Wanted(r, buyer, item, price) {
    }
  }

  /** There is one to take whenever a request is wanted. */
  lemma {:induction false} SomeRequestIsBest(rs: seq<Request>, buyer: UserId, item: string, price: int) returns (id: RequestId)
    requires exists r :: r in rs && Wanted(r, buyer, item, price)
    ensures Picked(rs, buyer, item, price, id)
  {
    var n := |rs| - 1;
    var front, last := rs[..n], rs[n];
    if r :| r in front && Wanted(r, buyer, item, price) {
      id := SomeRequestIsBest(front, buyer, item, price);
      assert rs[id] == front[id];
      if Wanted(last, buyer, item, price) && rs[id].maxPrice < last.maxPrice {
        id := n;
      }
    } else {
      var r :| r in rs && Wanted(r, buyer, item, price);
      assert r == last;
      id := n;
      assert forall j :: 0 <= j < n ==> rs[j] in front;
    }
  }

  /** A purchase that nothing interrupts fills one unit: the buyer gets the unit's reserve back, and the request stays
      open exactly while it wants more. */
  lemma PurchaseFillsOne(s: State, id: RequestId, buyer: UserId, item: string, price: int)
    requires Inv(s) && Picked(s.d.requests, buyer, item, price, id)
    ensures var r := s.d.requests[id];
            var t := Step(Step(s, BeginFulfill(buyer, item, price, id)), Finish(Fulfill(id, r)));
            && r.buyer < |s.d.wallets|
            && var w := s.d.wallets[r.buyer];
               t.d == Tables(s.d.requests[id := r.(filled := r.filled + 1, reserved := r.reserved - r.maxPrice,
                                                   status := if r.filled + 1 < r.quantity then Open else Fulfilled)],
                             s.d.wallets[r.buyer := Wallet(w.available + r.maxPrice, w.held - r.maxPrice, w.orders)],
                             s.d.entries[(r.buyer, FulfillKey(id, r.filled + 1)) := r.maxPrice])
  {
    assert RowOk(s.d, id);
    FulfillEffect(s.d, id, s.d.requests[id]);
  }

  /** Only its buyer cancels a request, and anyone's open request may expire; either gives the rest of the reserve back. */
  lemma ClosingGivesTheRestBack(s: State, id: RequestId, buyer: UserId, expire: bool)
    requires Inv(s)
    ensures var rs := s.d.requests;
            var begin := if expire then BeginExpire(id) else BeginCancel(buyer, id);
            && (Step(s, begin) != s
                <==> id < |rs| && rs[id].status == Open && (!expire ==> rs[id].buyer == buyer))
            && (Step(s, begin) != s ==>
                  var r := rs[id];
                  var call := if expire then Expire(id, r) else Cancel(id, r);
                  && r.buyer < |s.d.wallets|
                  && var w := s.d.wallets[r.buyer];
                     Step(Step(s, begin), Finish(call)).d
                     == Tables(rs[id := r.(reserved := 0, status := if expire then Expired else Canceled)],
                               s.d.wallets[r.buyer := Wallet(w.available + r.reserved, w.held - r.reserved, w.orders)],
                               s.d.entries[(r.buyer, if expire then ExpireKey(id) else CancelKey(id)) := r.reserved]))
  {
    if id < |s.d.requests| && s.d.requests[id].status == Open {
      var r := s.d.requests[id];
      assert RowOk(s.d, id);
      CloseEffect(s.d, id, r, Expired, ExpireKey(id));
      CloseEffect(s.d, id, r, Canceled, CancelKey(id));
      assert |s.inFlight + multiset{Expire(id, r)}| == |s.inFlight| + 1;
      assert |s.inFlight + multiset{Cancel(id, r)}| == |s.inFlight| + 1;
    }
  }
}
