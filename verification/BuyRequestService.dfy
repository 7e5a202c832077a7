/** The buy-request transactions, step by step on the tables; a throw rolls the transaction back. */
module BuyRequestService {
  import B = BuyRequests

  class RequestTables {
    var requests: seq<B.Request>
    var wallets: seq<B.Wallet>
    var entries: map<(B.UserId, B.Key), int>

    function Snapshot(): B.Tables
      reads this
    {
      B.Tables(requests, wallets, entries)
    }

    constructor (start: B.Tables)
      ensures Snapshot() == start
    {
      requests, wallets, entries := start.requests, start.wallets, start.entries;
    }

    /** LedgerService.reserveBuyRequestHold. */
    method ReserveHold(u: B.UserId, amount: int, key: B.Key) returns (ok: bool)
      requires u < |wallets|
      modifies this`wallets, this`entries
      ensures var e := B.ReserveHold(old(Snapshot()), u, amount, key);
              ok == e.Some? && Snapshot() == e.GetOr(old(Snapshot()))
    {
      if amount <= 0 {
        return false;
      }
      if (u, key) in entries {
        return true;
      }
      var w := wallets[u];
      if w.available < amount {
        return false;
      }
      wallets := wallets[u := w.(available := w.available - amount, held := w.held + amount)];
      entries := entries[(u, key) := amount];
      ok := true;
    }

    /** LedgerService.releaseBuyRequestHold. */
    method ReleaseHold(u: B.UserId, amount: int, key: B.Key) returns (ok: bool)
      requires u < |wallets|
      modifies this`wallets, this`entries
      ensures var e := B.ReleaseHold(old(Snapshot()), u, amount, key);
              ok == e.Some? && Snapshot() == e.GetOr(old(Snapshot()))
    {
      if amount <= 0 {
        return false;
      }
      if (u, key) in entries {
        return true;
      }
      var w := wallets[u];
      if w.held < amount {
        return false;
      }
      wallets := wallets[u := w.(available := w.available + amount, held := w.held - amount)];
      entries := entries[(u, key) := amount];
      ok := true;
    }

    /** The transaction of create: the row, then its reserve. */
    method Create(buyer: B.UserId, item: string, maxPrice: int, quantity: int) returns (ok: bool)
      modifies this
      ensures var e := B.CommitCreate(old(Snapshot()), buyer, item, maxPrice, quantity);
              ok == e.Some? && Snapshot() == e.GetOr(old(Snapshot()))
    {
      if buyer >= |wallets| {
        return false;
      }
      var saved := requests;
      var amount := maxPrice * quantity;
      requests := requests + [B.Request(buyer, item, maxPrice, quantity, 0, amount, B.Open)];
      ok := ReserveHold(buyer, amount, B.ReserveKey(|saved|));
      if !ok {
        requests := saved;
      }
    }

    /** fulfillForPurchase, for the candidate that was read as `snap`. */
    method FulfillForPurchase(id: B.RequestId, snap: B.Request) returns (ok: bool)
      modifies this
      ensures var e := B.CommitFulfill(old(Snapshot()), id, snap);
              ok == e.Some? && Snapshot() == e.GetOr(old(Snapshot()))
    {
      if snap.maxPrice == 0 {
        return true;
      }
      var unit := snap.maxPrice;
      if snap.reserved < unit || !B.Unmoved(Snapshot(), id, snap) || snap.buyer >= |wallets| {
        return false;
      }
      var saved := requests;
      var next := snap.filled + 1;
      requests := requests[id := requests[id].(filled := next, reserved := snap.reserved - unit,
                                               status := if next >= snap.quantity then B.Fulfilled else B.Open)];
      ok := true;
      if unit > 0 && snap.reserved > 0 {
        ok := ReleaseHold(snap.buyer, unit, B.FulfillKey(id, next));
      }
      if !ok {
        requests := saved;
      }
    }

    /** The transaction shared by cancel and releaseHoldForExpired, for a request that was read as `snap`. */
    method Close(id: B.RequestId, snap: B.Request, status: B.Status, key: B.Key) returns (ok: bool)
      modifies this
      ensures var e := B.CommitClose(old(Snapshot()), id, snap, status, key);
              ok == e.Some? && Snapshot() == e.GetOr(old(Snapshot()))
    {
      if !B.Unmoved(Snapshot(), id, snap) || snap.buyer >= |wallets| {
        return false;
      }
      var saved := requests;
      requests := requests[id := requests[id].(reserved := 0, status := status)];
      ok := true;
      if snap.reserved > 0 {
        ok := ReleaseHold(snap.buyer, snap.reserved, key);
      }
      if !ok {
        requests := saved;
      }
    }
  }
}
