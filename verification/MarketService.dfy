/**
 The transactions of the market, step by step on the rows: each method performs the row writes of its
 service call in their order and rolls back when one of them throws. Together they are one action of
 the state machine in module Market.
 */
module MarketService {
  import opened Common
  import OS = OrderStates
  import ST = Settlement
  import L = Ledger
  import M = Market

  datatype Resolution = ForBuyer | ForSeller

  /** The row of a new purchase; the reserve counts for it only if money moved under its key. */
  function NewOrder(id: string, l: nat, buyer: L.UserId, lot: M.Lot, moved: bool): M.Order {
    M.Order(id, l, buyer, lot.seller, OS.Created, lot.price, ST.Hold(lot.price, 0, 0, None, None),
            M.Paid(if moved then lot.price else 0, 0, 0, 0, 0, 0), None)
  }

  class MarketTables {
    var lots: seq<M.Lot>
    var orders: seq<M.Order>
    var ledger: L.Book
    var stats: map<M.Day, M.DayStats>
    var createKeys: set<string>
    var admitted: multiset<M.Admission>

    function Snapshot(): M.State
      reads this
    {
      M.State(lots, orders, ledger, stats, createKeys, admitted)
    }

    constructor (start: M.State)
      ensures Snapshot() == start
    {
      lots, orders, ledger, stats, createKeys, admitted :=
        start.lots, start.orders, start.ledger, start.stats, start.createKeys, start.admitted;
    }

    method Rollback(saved: M.State)
      modifies this
      ensures Snapshot() == saved
    {
      lots, orders, ledger, stats, createKeys, admitted :=
        saved.lots, saved.orders, saved.ledger, saved.stats, saved.createKeys, saved.admitted;
    }

    /** OrderStateService.transition: check the table, then update where the status is still `from`. */
    method TransitionOrder(i: nat, from: OS.OrderStatus, to: OS.OrderStatus) returns (ok: bool)
      requires i < |orders|
      modifies this`orders
      ensures ok <==> to in OS.AllowedNext(from) && old(orders)[i].status == from
      ensures orders == if ok then old(orders)[i := old(orders)[i].(status := to)] else old(orders)
    {
      if to !in OS.AllowedNext(from) || orders[i].status != from {
        return false;
      }
      orders := orders[i := orders[i].(status := to)];
      ok := true;
    }

    /** OrderStateService.transitionByEvent: an event needs a rule, and its guard must hold. */
    method TransitionByEvent(i: nat, from: OS.OrderStatus, event: OS.OrderEvent, delivered: bool)
      returns (ok: bool)
      requires i < |orders|
      modifies this`orders
      ensures var rule := OS.RuleFor(from, event);
              && (ok <==> rule.Some? && (rule.value.needsDelivery ==> delivered) && old(orders)[i].status == from)
              && orders == if ok then old(orders)[i := old(orders)[i].(status := rule.value.to)] else old(orders)
    {
      var rule := OS.RuleFor(from, event);
      if rule.None? || (rule.value.needsDelivery && !delivered) {
        return false;
      }
      ok := TransitionOrder(i, from, rule.value.to);
    }

    /** LotStateService.transition. */
    method TransitionLot(l: nat, from: OS.LotStatus, to: OS.LotStatus) returns (ok: bool)
      requires l < |lots|
      modifies this`lots
      ensures ok <==> to in OS.LotNext(from) && old(lots)[l].status == from
      ensures lots == if ok then old(lots)[l := old(lots)[l].(status := to)] else old(lots)
    {
      if to !in OS.LotNext(from) || lots[l].status != from {
        return false;
      }
      lots := lots[l := lots[l].(status := to)];
      ok := true;
    }

    /** LedgerService.refundHold for an order, with what its ledger entries now add up to. */
    method RefundHold(i: nat, amount: int, key: L.Key) returns (ok: bool)
      requires M.GoodOrder(Snapshot(), i)
      modifies this`orders, this`ledger
      ensures var o := old(orders)[i];
              var m := L.RefundHold(old(ledger), o.buyer, amount, key);
              && ok == m.Some?
              && ledger == (if ok then m.value.book else old(ledger))
              && orders == if ok && m.value.moved
                           then old(orders)[i := o.(paid := o.paid.(refunded := o.paid.refunded + amount,
                                                                     refunds := o.paid.refunds + 1))]
                           else old(orders)
    {
      var o := orders[i];
      var m := L.RefundHold(ledger, o.buyer, amount, key);
      if m.None? {
        return false;
      }
      ledger := m.value.book;
      if m.value.moved {
        orders := orders[i := o.(paid := o.paid.(refunded := o.paid.refunded + amount,
                                                 refunds := o.paid.refunds + 1))];
      }
      ok := true;
    }

    /** LedgerService.settleSale for an order, at the prices of its lot. */
    method SettleSale(i: nat, key: L.Key) returns (ok: bool)
      requires M.GoodOrder(Snapshot(), i) && L.HasPlatform(ledger)
      modifies this`orders, this`ledger
      ensures var o := old(orders)[i];
              var lot := lots[o.lot];
              var m := L.SettleSale(old(ledger), o.buyer, o.seller, o.hold.amount,
                                    lot.sellerReceive, lot.commission, key);
              && ok == m.Some?
              && ledger == (if ok then m.value.book else old(ledger))
              && orders == if ok then old(orders)[i := M.Settled(o, lot, m.value.moved)] else old(orders)
    {
      var o := orders[i];
      var lot := lots[o.lot];
      var m := L.SettleSale(ledger, o.buyer, o.seller, o.hold.amount, lot.sellerReceive, lot.commission, key);
      if m.None? {
        return false;
      }
      ledger := m.value.book;
      orders := orders[i := M.Settled(o, lot, m.value.moved)];
      ok := true;
    }

    /** The lookup with which OrdersService.create starts, before its transaction. */
    method AdmitCreate(buyer: L.UserId, lot: nat, key: string) returns (ok: bool)
      modifies this`admitted
      ensures Snapshot() == M.Step(old(Snapshot()), M.AdmitCreate(buyer, lot, key))
    {
      if key in createKeys {
        return false;
      }
      admitted := admitted + multiset{M.Admission(buyer, lot, key)};
      ok := true;
    }

    /** The money and the row of a new purchase: freeze the price under the reserve key, then insert the order. */
    method InsertOrder(id: string, buyer: L.UserId, lot: nat, key: string) returns (ok: bool)
      requires lot < |lots| && buyer < |ledger.wallets|
      modifies this`orders, this`ledger
      ensures var r := L.ReservePurchaseHold(old(ledger), buyer, lots[lot].price, L.OrderReserve(key));
              && ok == r.Some?
              && ledger == (if ok then r.value.book else old(ledger))
              && orders == if ok then old(orders) + [NewOrder(id, lot, buyer, lots[lot], r.value.moved)] else old(orders)
    {
      var reserve := L.ReservePurchaseHold(ledger, buyer, lots[lot].price, L.OrderReserve(key));
      if reserve.None? {
        return false;
      }
      orders := orders + [NewOrder(id, lot, buyer, lots[lot], reserve.value.moved)];
      ledger := reserve.value.book;
      ok := true;
    }

    /** The transitions of a new purchase: payment reserved, lot reserved, trade started. */
    method StartTrade(n: nat, lot: nat)
      requires n < |orders| && orders[n].status == OS.Created && lot < |lots| && lots[lot].status.Active?
      modifies this`orders, this`lots
      ensures orders == old(orders)[n := old(orders)[n].(status := OS.WaitingTrade)]
      ensures lots == old(lots)[lot := old(lots)[lot].(status := OS.Reserved)]
    {
      var paid := TransitionByEvent(n, OS.Created, OS.PaymentReservedEvent, false);
      var reserved := TransitionLot(lot, OS.Active, OS.Reserved);
      var started := TransitionByEvent(n, OS.PaymentReserved, OS.TradeOperationCreated, false);
    }

    /** The transaction of OrdersService.create: lock the lot, reserve the money, create the order, reserve the lot. */
    method CreateOrder(id: string, buyer: L.UserId, lot: nat, key: string) returns (ok: bool)
      modifies this
      ensures var r := M.DoCreate(old(Snapshot()), id, buyer, lot, key);
              ok == r.Some? && Snapshot() == r.GetOr(old(Snapshot()))
    {
      if M.Admission(buyer, lot, key) !in admitted || lot >= |lots| || buyer >= |ledger.wallets| {
        return false;
      }
      if M.IdUsed(orders, id) {
        return false;
      }
      if !lots[lot].status.Active? || lots[lot].seller == buyer {
        return false;
      }
      if M.HasOpenOrder(orders, lot) {
        return false;
      }
      ok := InsertOrder(id, buyer, lot, key);
      if ok {
        ghost var order := orders[|orders| - 1];
        StartTrade(|orders| - 1, lot);
        assert orders == old(orders) + [order.(status := OS.WaitingTrade)];
        createKeys := createKeys + {key};
        admitted := admitted - multiset{M.Admission(buyer, lot, key)};
      }
    }

    /** OrdersService.cancel. */
    method CancelOrder(i: nat, key: string, sendStarted: bool) returns (ok: bool)
      modifies this
      ensures var r := M.DoCancel(old(Snapshot()), i, key, sendStarted);
              ok == r.Some? && Snapshot() == r.GetOr(old(Snapshot()))
    {
      var saved := Snapshot();
      if !M.GoodOrder(saved, i) {
        return false;
      }
      var current := orders[i];
      if !OS.IsOpen(current.status) || current.status == OS.TradeConfirmed || sendStarted {
        return false;
      }
      ok := RefundHold(i, current.hold.amount, L.OrderCancel(key));
      if ok {
        ok := TransitionByEvent(i, current.status, OS.CancelEvent, false);
      }
      if ok {
        ok := TransitionLot(current.lot, lots[current.lot].status, OS.Active);
      }
      if !ok {
        Rollback(saved);
      }
    }

    /** SettlementService.enterSettlementHold: nothing happens when the hold was entered before, and the
        transition throws without verified delivery. */
    method EnterSettlementHold(i: nat, until: ST.Time, delivered: bool) returns (ok: bool)
      modifies this
      ensures ok == M.Apply(old(Snapshot()), M.EnterHold(i, until, delivered)).Some?
      ensures Snapshot() == M.Step(old(Snapshot()), M.EnterHold(i, until, delivered))
    {
      if !M.GoodOrder(Snapshot(), i) || orders[i].hold.holdUntil.Some? {
        return false;
      }
      ok := TransitionByEvent(i, OS.TradeConfirmed, OS.SettlementStarted, delivered);
      if ok {
        orders := orders[i := orders[i].(hold := orders[i].hold.(holdUntil := Some(until)))];
      }
    }

    /** SettlementService.incrementDailyStats. */
    method IncrementDailyStats(day: M.Day, amount: int)
      modifies this`stats
      ensures stats == M.Incremented(old(stats), day, amount)
    {
      if day in stats {
        stats := stats[day := M.DayStats(stats[day].orderCount + 1, stats[day].volume + amount)];
      } else {
        stats := stats[day := M.DayStats(1, amount)];
      }
    }

    /** The order and lot part of a release: capture the hold, complete the order, sell the lot. */
    method CaptureAndSell(i: nat, paidAt: ST.Time) returns (ok: bool)
      requires M.GoodOrder(Snapshot(), i) && orders[i].status == OS.SettlementHold
      modifies this`orders, this`lots
      ensures var o := old(orders)[i];
              && ok == (OS.Sold in OS.LotNext(old(lots)[o.lot].status))
              && (ok ==>
                    orders == old(orders)[i := o.(status := OS.Completed,
                                                  hold := o.hold.(captured := o.hold.amount, releasedAt := Some(paidAt)))]
                    && lots == old(lots)[o.lot := old(lots)[o.lot].(status := OS.Sold)])
    {
      var o := orders[i];
      orders := orders[i := o.(hold := o.hold.(captured := o.hold.amount, releasedAt := Some(paidAt)))];
      ok := TransitionByEvent(i, OS.SettlementHold, OS.SettlementReleased, true);
      assert ok;
      ok := TransitionLot(o.lot, lots[o.lot].status, OS.Sold);
    }

    /** SettlementService.releaseSettlementHold: settle, capture, complete, sell, count. */
    method ReleaseSettlementHold(i: nat, paidAt: ST.Time, statsDay: M.Day) returns (ok: bool)
      requires M.GoodOrder(Snapshot(), i) && orders[i].status == OS.SettlementHold
      modifies this
      ensures var paid := M.DoPayOut(old(Snapshot()), i, paidAt, statsDay);
              ok == paid.Some? && Snapshot() == paid.GetOr(old(Snapshot()))
    {
      var saved := Snapshot();
      if !L.HasPlatform(ledger) {
        return false;
      }
      var order := orders[i];
      ok := SettleSale(i, L.SettlementRelease(order.id));
      if ok {
        ok := CaptureAndSell(i, paidAt);
      }
      if ok {
        orders := orders[i := orders[i].(settledOn := Some(statsDay))];
        IncrementDailyStats(statsDay, order.amount);
      } else {
        Rollback(saved);
      }
    }

    /** A settlement call through one of the three entry points. */
    method SettleOrder(i: nat, entry: ST.EntryPoint, c: ST.Config, e: ST.Evidence, t: ST.Clock,
                       guardDay: M.Day, statsDay: M.Day) returns (ok: bool)
      modifies this
      ensures ok == M.Apply(old(Snapshot()), M.Settle(i, entry, c, e, t, guardDay, statsDay)).Some?
      ensures Snapshot() == M.Step(old(Snapshot()), M.Settle(i, entry, c, e, t, guardDay, statsDay))
    {
      var s := Snapshot();
      if !M.GoodOrder(s, i) {
        return false;
      }
      var witnessed := M.Witnessed(s, i, e, guardDay);
      match ST.Verdicts(entry, c, M.View(s, i), witnessed, t)
      case Keep => ok := false;
      case Enter(until) => ok := EnterSettlementHold(i, until, ST.IsDeliveryVerified(e.operation));
      case Pay =>
        ST.OnlyHoldsPay(entry, c, M.View(s, i), witnessed, t);
        ok := ReleaseSettlementHold(i, t.paid, statsDay);
    }

    /** SettlementService.reverseSettlementHold. */
    method ReverseSettlementHold(i: nat) returns (ok: bool)
      modifies this
      ensures var r := M.DoReverse(old(Snapshot()), i);
              ok == r.Some? && Snapshot() == r.GetOr(old(Snapshot()))
    {
      var saved := Snapshot();
      if !M.GoodOrder(saved, i) || orders[i].status != OS.SettlementHold {
        return false;
      }
      var order := orders[i];
      if order.hold.captured > 0 || order.hold.releasedAt.Some? {
        return false;
      }
      var refund := order.hold.amount - order.hold.released;
      ok := true;
      if refund > 0 {
        ok := RefundHold(i, refund, L.HoldReverse(order.id));
      }
      if ok {
        var o := orders[i];
        orders := orders[i := o.(hold := o.hold.(released := order.hold.amount))];
        ok := TransitionByEvent(i, OS.SettlementHold, OS.SettlementReversed, false);
        assert ok;
        ok := TransitionLot(order.lot, lots[order.lot].status, OS.Blocked);
      }
      if !ok {
        Rollback(saved);
      }
    }

    /** AdminService.openDispute. */
    method OpenDispute(i: nat) returns (ok: bool)
      modifies this
      ensures ok == M.Apply(old(Snapshot()), M.OpenDispute(i)).Some?
      ensures Snapshot() == M.Step(old(Snapshot()), M.OpenDispute(i))
    {
      var saved := Snapshot();
      if !M.GoodOrder(saved, i) {
        return false;
      }
      var current := orders[i];
      if current.status == OS.Dispute || !OS.IsOpen(current.status) {
        return false;
      }
      ok := TransitionOrder(i, current.status, OS.Dispute);
      if ok {
        ok := TransitionLot(current.lot, lots[current.lot].status, OS.Blocked);
      }
      if !ok {
        Rollback(saved);
      }
    }

    /** AdminService.resolveDispute. */
    method ResolveDispute(i: nat, resolution: Resolution, key: string) returns (ok: bool)
      modifies this
      ensures var a := if resolution.ForBuyer? then M.ResolveBuyer(i, key) else M.ResolveSeller(i, key);
              ok == M.Apply(old(Snapshot()), a).Some? && Snapshot() == M.Step(old(Snapshot()), a)
    {
      if !M.GoodOrder(Snapshot(), i) || orders[i].status != OS.Dispute {
        return false;
      }
      if resolution.ForBuyer? {
        ok := ResolveForBuyer(i, key);
      } else {
        ok := ResolveForSeller(i, key);
      }
    }

    method ResolveForBuyer(i: nat, key: string) returns (ok: bool)
      requires M.GoodOrder(Snapshot(), i) && orders[i].status == OS.Dispute
      modifies this
      ensures var r := M.DoResolveBuyer(old(Snapshot()), i, key);
              ok == r.Some? && Snapshot() == r.GetOr(old(Snapshot()))
    {
      var saved := Snapshot();
      var current := orders[i];
      if current.hold.captured > 0 || current.hold.amount - current.hold.released <= 0 {
        return false;
      }
      ok := RefundHold(i, current.hold.amount, L.ResolveBuyer(key));
      if ok {
        var o := orders[i];
        orders := orders[i := o.(hold := o.hold.(released := current.hold.amount))];
        ok := TransitionOrder(i, OS.Dispute, OS.Failed);
        if lots[current.lot].status != OS.Blocked {
          ok := TransitionLot(current.lot, lots[current.lot].status, OS.Blocked);
        } else {
          assert lots == lots[current.lot := lots[current.lot].(status := OS.Blocked)];
        }
      }
      if !ok {
        Rollback(saved);
      }
    }

    method ResolveForSeller(i: nat, key: string) returns (ok: bool)
      requires M.GoodOrder(Snapshot(), i) && orders[i].status == OS.Dispute
      modifies this
      ensures var r := M.DoResolveSeller(old(Snapshot()), i, key);
              ok == r.Some? && Snapshot() == r.GetOr(old(Snapshot()))
    {
      var saved := Snapshot();
      var current := orders[i];
      var lot := lots[current.lot];
      if !L.HasPlatform(ledger) || current.hold.captured > 0
         || lot.sellerReceive + lot.commission != current.hold.amount {
        return false;
      }
      ok := SettleSale(i, L.ResolveSeller(key));
      if ok {
        var o := orders[i];
        orders := orders[i := o.(hold := o.hold.(captured := current.hold.amount))];
        ok := TransitionOrder(i, OS.Dispute, OS.Completed);
        assert ok;
        ok := TransitionLot(current.lot, lot.status, OS.Sold);
      }
      if !ok {
        Rollback(saved);
      }
    }

    /** LotsService.listAssetInTransaction: reuse the asset's lot unless it is on sale or reserved. */
    method ListAsset(seller: L.UserId, asset: nat, price: int, commission: int) returns (ok: bool)
      modifies this
      ensures ok == M.Apply(old(Snapshot()), M.ListAsset(seller, asset, price, commission)).Some?
      ensures Snapshot() == M.Step(old(Snapshot()), M.ListAsset(seller, asset, price, commission))
    {
      if !M.GoodPrice(price, commission) || seller >= |ledger.wallets| {
        return false;
      }
      var reusable := M.LotOf(lots, asset);
      if reusable < |lots| && !lots[reusable].status.Active? && !lots[reusable].status.Reserved? {
        lots := lots[reusable := lots[reusable].(status := OS.Active, price := price, commission := commission,
                                                 sellerReceive := price - commission)];
        return true;
      }
      if reusable < |lots| {
        return false;
      }
      lots := lots + [M.Lot(seller, asset, OS.Active, price, commission, price - commission)];
      ok := true;
    }

    /** LotsService.updatePrice, as one step. */
    method UpdatePrice(l: nat, price: int, commission: int) returns (ok: bool)
      modifies this`lots
      ensures Snapshot() == M.Step(old(Snapshot()), M.UpdatePrice(l, price, commission))
    {
      if l >= |lots| || !M.GoodPrice(price, commission) || !lots[l].status.Active? {
        return false;
      }
      lots := lots[l := lots[l].(price := price, commission := commission, sellerReceive := price - commission)];
      ok := true;
    }

    /** LotsService.cancel, as one step. */
    method CancelLot(l: nat) returns (ok: bool)
      modifies this`lots
      ensures Snapshot() == M.Step(old(Snapshot()), M.CancelLot(l))
    {
      if l >= |lots| {
        return false;
      }
      ok := TransitionLot(l, lots[l].status, OS.LotCanceled);
    }

    /** AdminService.blockLot. */
    method BlockLot(l: nat) returns (ok: bool)
      modifies this`lots
      ensures Snapshot() == M.Step(old(Snapshot()), M.BlockLot(l))
    {
      if l >= |lots| || !lots[l].status.Active? {
        return false;
      }
      ok := TransitionLot(l, lots[l].status, OS.Blocked);
    }

    /** AdminService.unblockLot. */
    method UnblockLot(l: nat) returns (ok: bool)
      modifies this`lots
      ensures Snapshot() == M.Step(old(Snapshot()), M.UnblockLot(l))
    {
      if l >= |lots| || !lots[l].status.Blocked? {
        return false;
      }
      ok := TransitionLot(l, lots[l].status, OS.Active);
    }

    /** AdminService.adminCancelLot. */
    method AdminCancelLot(l: nat) returns (ok: bool)
      modifies this`lots
      ensures Snapshot() == M.Step(old(Snapshot()), M.AdminCancelLot(l))
    {
      if l >= |lots| || !lots[l].status.Active? {
        return false;
      }
      ok := TransitionLot(l, lots[l].status, OS.LotCanceled);
    }

    /** DisputeOpsService.openSystemDispute: only from the statuses of a running trade. */
    method OpenSystemDispute(i: nat) returns (ok: bool)
      modifies this
      ensures Snapshot() == M.Step(old(Snapshot()), M.OpenSystemDispute(i))
    {
      var saved := Snapshot();
      if !M.GoodOrder(saved, i) || !M.CanAutoOpenFrom(orders[i].status) {
        return false;
      }
      var current := orders[i];
      ok := TransitionOrder(i, current.status, OS.Dispute);
      assert ok;
      ok := TransitionLot(current.lot, lots[current.lot].status, OS.Blocked);
      if !ok {
        Rollback(saved);
      }
    }

    /** The order part of TradesService.applyTradeConfirmedFromPoll, once its delivery proof is bound. */
    method ConfirmDelivery(i: nat) returns (ok: bool)
      modifies this`orders
      ensures Snapshot() == M.Step(old(Snapshot()), M.ConfirmDelivery(i))
    {
      if !M.GoodOrder(Snapshot(), i) {
        return false;
      }
      ok := TransitionByEvent(i, OS.WaitingTrade, OS.DeliveryVerified, true);
    }

    /** TradesService.applyTradeFailedFromPoll in its safe mode: refund, mark the hold released, fail the order, free the lot. */
    method FailSafe(i: nat, reason: string) returns (ok: bool)
      modifies this
      ensures var r := M.DoFailSafe(old(Snapshot()), i, reason);
              ok == r.Some? && Snapshot() == r.GetOr(old(Snapshot()))
    {
      var saved := Snapshot();
      if !M.GoodOrder(saved, i) || orders[i].status != OS.WaitingTrade {
        return false;
      }
      var current := orders[i];
      ok := RefundHold(i, current.hold.amount, L.FailSafe(current.id, reason));
      if ok {
        var o := orders[i];
        orders := orders[i := o.(hold := o.hold.(released := current.hold.amount))];
        ok := TransitionByEvent(i, OS.WaitingTrade, OS.FailSafe, false);
        assert ok;
        ok := TransitionLot(current.lot, lots[current.lot].status, OS.Active);
      }
      if !ok {
        Rollback(saved);
      }
    }
  }
}
