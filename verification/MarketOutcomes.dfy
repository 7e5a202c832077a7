/**
 When each market call takes effect in the states of fair runs, and what it leaves on the rows and in the
 wallets: the ledger and the transition tables never get in the way there, except where a condition says so.
 */
module MarketOutcomes {
  import opened Common
  import OS = OrderStates
  import ST = Settlement
  import L = Ledger
  import opened Market
  import opened MarketMoney

  /** Every state of a fair run is good. */
  lemma FairRunsAreGood(start: State, acts: seq<Action>)
    requires Initial(start) && FairRun(start, acts)
    ensures Good(Run(start, acts))
  {
    FairRunKeepsGood(start, acts);
  }

  predicate Exists(s: State, i: nat) {
    i < |s.orders| && s.orders[i].lot < |s.lots|
  }

  /** The call wrote order `i` and the status of its lot, and no other row. */
  predicate Leaves(s: State, t: State, i: nat, order: Order, lotStatus: OS.LotStatus)
    requires Exists(s, i)
  {
    var l := s.orders[i].lot;
    && t.orders == s.orders[i := order] && t.lots == s.lots[l := s.lots[l].(status := lotStatus)]
    && t.createKeys == s.createKeys && t.admitted == s.admitted
  }

  /** The wallets after the buyer's hold account gave up `fromHeld` and these shares were paid. */
  ghost predicate Pay(s: State, t: State, o: Order, fromHeld: int, toBuyer: int, toSeller: int, toPlatform: int) {
    && |t.ledger.wallets| == |s.ledger.wallets|
    && forall v :: 0 <= v < |s.ledger.wallets| ==>
         var w := s.ledger.wallets[v];
         t.ledger.wallets[v]
         == L.Wallet(w.available + (if v == o.buyer then toBuyer else 0) + (if v == o.seller then toSeller else 0)
                     + (if v == 0 then toPlatform else 0),
                     w.held - (if v == o.buyer then fromHeld else 0), w.forRequests)
  }

  // ----- Refunds -----

  lemma HeldCovers(s: State, i: nat)
    requires Good(s) && i < |s.orders| && Untouched(s.orders[i])
    ensures GoodOrder(s, i) && MoneyOk(s.orders[i]) && s.orders[i].buyer < |s.ledger.wallets|
    ensures s.orders[i].hold.amount == s.orders[i].amount
    ensures 0 < s.orders[i].amount <= s.ledger.wallets[s.orders[i].buyer].held
  {
    assert OrderOk(s, i) && MoneyOk(s.orders[i]);
    HeldCoversOrder(s.orders, i);
  }

  lemma RefundsInFull(s: State, i: nat, key: L.Key)
    requires Good(s) && i < |s.orders| && Untouched(s.orders[i]) && (s.orders[i].buyer, key) !in s.ledger.keys
    ensures GoodOrder(s, i) && s.orders[i].hold.amount == s.orders[i].amount
    ensures var o := s.orders[i];
            var m := L.RefundHold(s.ledger, o.buyer, o.amount, key);
            && m.Some? && m.value.moved
            && Pay(s, s.(ledger := m.value.book), o, o.amount, o.amount, 0, 0)
  {
    HeldCovers(s, i);
    L.RefundEffect(s.ledger, s.orders[i].buyer, s.orders[i].amount, key);
  }

  function Back(o: Order): Paid {
    Paid(o.amount, o.amount, 0, 0, 1, 0)
  }

  lemma Cancels(s: State, i: nat, key: string)
    requires Good(s) && i < |s.orders| && s.orders[i].status in {OS.PaymentReserved, OS.WaitingTrade}
    requires (s.orders[i].buyer, L.OrderCancel(key)) !in s.ledger.keys
    ensures Exists(s, i) && DoCancel(s, i, key, false).Some?
    ensures var o, t := s.orders[i], DoCancel(s, i, key, false).value;
            && Leaves(s, t, i, o.(status := OS.Canceled, paid := Back(o)), OS.Active)
            && t.stats == s.stats && Pay(s, t, o, o.amount, o.amount, 0, 0)
  {
    assert OrderOk(s, i) && MoneyOk(s.orders[i]);
    RefundsInFull(s, i, L.OrderCancel(key));
  }

  /** A cancellation takes effect exactly before the trade is confirmed and the send has begun: the buyer has the money
      back and the lot is on sale again. */
  lemma CancelOutcome(s: State, i: nat, key: string, sendStarted: bool)
    requires Good(s) && Fair(s, CancelOrder(i, key, sendStarted))
    ensures var r := Apply(s, CancelOrder(i, key, sendStarted));
            && (r.Some? <==> i < |s.orders| && s.orders[i].status in {OS.PaymentReserved, OS.WaitingTrade} && !sendStarted)
            && (r.Some? ==>
                  var o := s.orders[i];
                  && Exists(s, i)
                  && Leaves(s, r.value, i, o.(status := OS.Canceled, paid := Back(o)), OS.Active)
                  && r.value.stats == s.stats && Pay(s, r.value, o, o.amount, o.amount, 0, 0))
  {
    if i < |s.orders| {
      assert OrderOk(s, i);
      if s.orders[i].status in {OS.PaymentReserved, OS.WaitingTrade} {
        Cancels(s, i, key);
      }
    }
  }

  lemma FailsSafely(s: State, i: nat, reason: string)
    requires Good(s) && i < |s.orders| && s.orders[i].status == OS.WaitingTrade
    ensures Exists(s, i) && DoFailSafe(s, i, reason).Some?
    ensures var o, t := s.orders[i], DoFailSafe(s, i, reason).value;
            && Leaves(s, t, i, o.(status := OS.Failed, paid := Back(o), hold := o.hold.(released := o.amount)), OS.Active)
            && t.stats == s.stats && Pay(s, t, o, o.amount, o.amount, 0, 0)
  {
    assert OrderOk(s, i) && MoneyOk(s.orders[i]);
    OwnKeyIsFresh(s, i, s.orders[i].buyer, L.FailSafe(s.orders[i].id, reason));
    RefundsInFull(s, i, L.FailSafe(s.orders[i].id, reason));
  }

  lemma Reverses(s: State, i: nat)
    requires Good(s) && i < |s.orders| && s.orders[i].status == OS.SettlementHold
    ensures Exists(s, i) && DoReverse(s, i).Some?
    ensures var o, t := s.orders[i], DoReverse(s, i).value;
            && Leaves(s, t, i, o.(status := OS.Dispute, paid := Back(o), hold := o.hold.(released := o.amount)), OS.Blocked)
            && t.stats == s.stats && Pay(s, t, o, o.amount, o.amount, 0, 0)
  {
    assert OrderOk(s, i) && MoneyOk(s.orders[i]);
    OwnKeyIsFresh(s, i, s.orders[i].buyer, L.HoldReverse(s.orders[i].id));
    RefundsInFull(s, i, L.HoldReverse(s.orders[i].id));
  }

  /** A failed delivery is refunded exactly while the order waits for its trade. */
  lemma FailSafeOutcome(s: State, i: nat, reason: string)
    requires Good(s)
    ensures var r := Apply(s, FailSafe(i, reason));
            && (r.Some? <==> i < |s.orders| && s.orders[i].status == OS.WaitingTrade)
            && (r.Some? ==>
                  var o := s.orders[i];
                  && Exists(s, i)
                  && Leaves(s, r.value, i,
                            o.(status := OS.Failed, paid := Back(o), hold := o.hold.(released := o.amount)), OS.Active)
                  && r.value.stats == s.stats && Pay(s, r.value, o, o.amount, o.amount, 0, 0))
  {
    if i < |s.orders| && s.orders[i].status == OS.WaitingTrade {
      FailsSafely(s, i, reason);
    }
  }

  /** A reversal is refunded exactly during settlement hold; the order is then in dispute and its lot blocked. */
  lemma ReverseOutcome(s: State, i: nat)
    requires Good(s)
    ensures var r := Apply(s, ReverseHold(i));
            && (r.Some? <==> i < |s.orders| && s.orders[i].status == OS.SettlementHold)
            && (r.Some? ==>
                  var o := s.orders[i];
                  && Exists(s, i)
                  && Leaves(s, r.value, i,
                            o.(status := OS.Dispute, paid := Back(o), hold := o.hold.(released := o.amount)), OS.Blocked)
                  && r.value.stats == s.stats && Pay(s, r.value, o, o.amount, o.amount, 0, 0))
  {
    if i < |s.orders| && s.orders[i].status == OS.SettlementHold {
      Reverses(s, i);
    }
  }

  // ----- Disputes -----

  /** A dispute opens exactly during a trade, by hand or by the system, and moves no money. */
  lemma DisputeOutcome(s: State, i: nat)
    requires LotInv(s)
    ensures var r := Apply(s, OpenDispute(i));
            && Apply(s, OpenSystemDispute(i)) == r
            && (r.Some? <==> i < |s.orders|
                             && s.orders[i].status in {OS.WaitingTrade, OS.TradeConfirmed, OS.SettlementHold})
            && (r.Some? ==>
                  && Exists(s, i)
                  && Leaves(s, r.value, i, s.orders[i].(status := OS.Dispute), OS.Blocked)
                  && r.value.stats == s.stats && r.value.ledger == s.ledger)
  {
    assert i < |s.orders| ==> OrderOk(s, i);
  }

  /** A dispute is resolved for the buyer exactly if the money is still frozen and the lot was not sold or canceled
      meanwhile: the buyer has the money back, the order failed, the lot is blocked. */
  lemma ResolveBuyerOutcome(s: State, i: nat, key: string)
    requires Good(s) && Fair(s, ResolveBuyer(i, key))
    ensures var r := Apply(s, ResolveBuyer(i, key));
            && (r.Some? <==> && Exists(s, i) && s.orders[i].status == OS.Dispute && s.orders[i].hold.released == 0
                             && s.lots[s.orders[i].lot].status in {OS.Blocked, OS.Active, OS.Draft})
            && (r.Some? ==>
                  var o := s.orders[i];
                  && Leaves(s, r.value, i,
                            o.(status := OS.Failed, paid := Back(o), hold := o.hold.(released := o.amount)), OS.Blocked)
                  && r.value.stats == s.stats && Pay(s, r.value, o, o.amount, o.amount, 0, 0))
  {
    if i < |s.orders| {
      assert OrderOk(s, i) && MoneyOk(s.orders[i]);
      if s.orders[i].status == OS.Dispute && s.orders[i].hold.released == 0 {
        RefundsInFull(s, i, L.ResolveBuyer(key));
      }
    }
  }

  lemma SettlesInFull(s: State, i: nat, key: L.Key)
    requires Good(s) && i < |s.orders| && Untouched(s.orders[i])
    requires GoodOrder(s, i) && s.lots[s.orders[i].lot].price == s.orders[i].amount
    requires (s.orders[i].buyer, key) !in s.ledger.keys
    ensures s.orders[i].hold.amount == s.orders[i].amount
    ensures var o := s.orders[i];
            var lot := s.lots[o.lot];
            var m := L.SettleSale(s.ledger, o.buyer, o.seller, o.amount, lot.sellerReceive, lot.commission, key);
            && (m.Some? <==> (o.seller, L.SellerLeg(key)) !in s.ledger.keys && (0, L.PlatformLeg(key)) !in s.ledger.keys)
            && (m.Some? ==>
                  && m.value.moved
                  && Pay(s, s.(ledger := m.value.book), o, o.amount, 0, lot.sellerReceive, lot.commission))
  {
    var o := s.orders[i];
    var lot := s.lots[o.lot];
    HeldCovers(s, i);
    assert LotOk(lot, |s.ledger.wallets|);
    L.SettleIsRefusedExactly(s.ledger, o.buyer, o.seller, o.amount, lot.sellerReceive, lot.commission, key);
    if (o.seller, L.SellerLeg(key)) !in s.ledger.keys && (0, L.PlatformLeg(key)) !in s.ledger.keys {
      L.SettleEffect(s.ledger, o.buyer, o.seller, o.amount, lot.sellerReceive, lot.commission, key);
    }
  }

  /** The key of a resolution for the seller is new for all three wallets it writes entries in. */
  predicate LegsAreNew(s: State, o: Order, key: string) {
    && (o.seller, L.SellerLeg(L.ResolveSeller(key))) !in s.ledger.keys
    && (0, L.PlatformLeg(L.ResolveSeller(key))) !in s.ledger.keys
  }

  /** What a resolution for the seller asks for. */
  predicate ForSeller(s: State, i: nat, key: string) {
    && Exists(s, i) && s.orders[i].status == OS.Dispute && s.lots[s.orders[i].lot].status == OS.Blocked
    && s.lots[s.orders[i].lot].price == s.orders[i].amount && LegsAreNew(s, s.orders[i], key)
  }

  lemma SellerIsRefused(s: State, i: nat, key: string)
    requires Good(s) && Fair(s, ResolveSeller(i, key)) && !ForSeller(s, i, key)
    ensures DoResolveSeller(s, i, key) == None
  {
    if i < |s.orders| {
      assert OrderOk(s, i) && MoneyOk(s.orders[i]);
      assert LotOk(s.lots[s.orders[i].lot], |s.ledger.wallets|);
    }
  }

  lemma SellerIsPaid(s: State, i: nat, key: string)
    requires Good(s) && Fair(s, ResolveSeller(i, key)) && ForSeller(s, i, key)
    ensures DoResolveSeller(s, i, key).Some?
    ensures var t := DoResolveSeller(s, i, key).value;
            var o, lot := s.orders[i], s.lots[s.orders[i].lot];
            && Leaves(s, t, i,
                      o.(status := OS.Completed, hold := o.hold.(captured := o.amount),
                         paid := Paid(o.amount, 0, lot.sellerReceive, lot.commission, 0, 1)), OS.Sold)
            && t.stats == s.stats && Pay(s, t, o, o.amount, 0, lot.sellerReceive, lot.commission)
  {
    assert OrderOk(s, i) && MoneyOk(s.orders[i]);
    assert LotOk(s.lots[s.orders[i].lot], |s.ledger.wallets|);
    SettlesInFull(s, i, L.ResolveSeller(key));
  }

  /** A dispute is resolved for the seller exactly if the lot is still blocked at the order's price and the key is new
      for seller and platform: the seller gets the lot's share, the platform its commission, and the lot is sold. */
  lemma ResolveSellerOutcome(s: State, i: nat, key: string)
    requires Good(s) && Fair(s, ResolveSeller(i, key))
    ensures var r := Apply(s, ResolveSeller(i, key));
            && (r.Some? <==> ForSeller(s, i, key))
            && (r.Some? ==>
                  var o, lot := s.orders[i], s.lots[s.orders[i].lot];
                  && Leaves(s, r.value, i,
                            o.(status := OS.Completed, hold := o.hold.(captured := o.amount),
                               paid := Paid(o.amount, 0, lot.sellerReceive, lot.commission, 0, 1)), OS.Sold)
                  && r.value.stats == s.stats && Pay(s, r.value, o, o.amount, 0, lot.sellerReceive, lot.commission))
  {
    if ForSeller(s, i, key) {
      SellerIsPaid(s, i, key);
    } else {
      SellerIsRefused(s, i, key);
    }
  }

  // ----- Delivery and settlement -----

  lemma AdvanceOutcome(s: State, i: nat, until: ST.Time, delivered: bool)
    requires LotInv(s)
    ensures Apply(s, ConfirmDelivery(i))
            == if i < |s.orders| && s.orders[i].status == OS.WaitingTrade
               then Some(s.(orders := s.orders[i := s.orders[i].(status := OS.TradeConfirmed)])) else None
    ensures Apply(s, EnterHold(i, until, delivered))
            == if && i < |s.orders| && s.orders[i].status == OS.TradeConfirmed && s.orders[i].hold.holdUntil == None
                  && delivered
               then Some(s.(orders := s.orders[i := s.orders[i].(status := OS.SettlementHold,
                                                                 hold := s.orders[i].hold.(holdUntil := Some(until)))]))
               else None
  {
    assert i < |s.orders| ==> OrderOk(s, i);
  }

  /** An order that the settlement service decides to pay is paid: to the seller the lot's share, to the platform its
      commission; the order is completed, the lot sold, and the day's count and volume grow by the order. */
  lemma PayoutOutcome(s: State, a: Action)
    requires Good(s) && a.Settle? && GoodOrder(s, a.order) && Pays(s, a)
    ensures Apply(s, a).Some?
    ensures var t := Step(s, a);
            var o, lot := s.orders[a.order], s.lots[s.orders[a.order].lot];
            && Leaves(s, t, a.order,
                      o.(status := OS.Completed, settledOn := Some(a.statsDay),
                         hold := o.hold.(captured := o.amount, releasedAt := Some(a.clock.paid)),
                         paid := Paid(o.amount, 0, lot.sellerReceive, lot.commission, 0, 1)), OS.Sold)
            && Pay(s, t, o, o.amount, 0, lot.sellerReceive, lot.commission)
            && (forall d :: StatsOn(t.stats, d)
                            == if d == a.statsDay
                               then DayStats(StatsOn(s.stats, d).orderCount + 1, StatsOn(s.stats, d).volume + o.amount)
                               else StatsOn(s.stats, d))
  {
    var i := a.order;
    ST.OnlyHoldsPay(a.entry, a.config, View(s, i), Witnessed(s, i, a.evidence, a.guardDay), a.clock);
    PaidOut(s, i, a.clock.paid, a.statsDay);
  }

  lemma PaidOut(s: State, i: nat, paidAt: ST.Time, day: Day)
    requires Good(s) && GoodOrder(s, i) && s.orders[i].status == OS.SettlementHold
    ensures DoPayOut(s, i, paidAt, day).Some?
    ensures var t := DoPayOut(s, i, paidAt, day).value;
            var o, lot := s.orders[i], s.lots[s.orders[i].lot];
            && Leaves(s, t, i,
                      o.(status := OS.Completed, settledOn := Some(day),
                         hold := o.hold.(captured := o.amount, releasedAt := Some(paidAt)),
                         paid := Paid(o.amount, 0, lot.sellerReceive, lot.commission, 0, 1)), OS.Sold)
            && Pay(s, t, o, o.amount, 0, lot.sellerReceive, lot.commission)
            && t.stats == Incremented(s.stats, day, o.amount)
  {
    var o := s.orders[i];
    assert OrderOk(s, i) && MoneyOk(o);
    var key := L.SettlementRelease(o.id);
    OwnKeyIsFresh(s, i, o.buyer, key);
    OwnKeyIsFresh(s, i, o.seller, L.SellerLeg(key));
    OwnKeyIsFresh(s, i, 0, L.PlatformLeg(key));
    SettlesInFull(s, i, key);
  }

  // ----- Purchases and listings -----

  /** A lookup admits a purchase exactly under a key no purchase has used. */
  lemma AdmitOutcome(s: State, buyer: L.UserId, lot: nat, key: string)
    ensures Apply(s, AdmitCreate(buyer, lot, key))
            == if key in s.createKeys then None
               else Some(s.(admitted := s.admitted + multiset{Admission(buyer, lot, key)}))
  {
  }

  /** An admitted purchase goes through exactly if the lot is on sale by another user, no dispute over it is open, and
      the buyer can pay: the price is frozen, the lot reserved, and the new order waits for its trade. */
  lemma CreateOutcome(s: State, id: string, buyer: L.UserId, lot: nat, key: string)
    requires Good(s) && Fair(s, CreateOrder(id, buyer, lot, key))
    ensures var r := Apply(s, CreateOrder(id, buyer, lot, key));
            && (r.Some? <==> && Admission(buyer, lot, key) in s.admitted && lot < |s.lots| && buyer < |s.ledger.wallets|
                             && s.lots[lot].status == OS.Active && s.lots[lot].seller != buyer
                             && s.lots[lot].price <= s.ledger.wallets[buyer].available
                             && (forall o :: o in s.orders ==> o.id != id)
                             && (forall o :: o in s.orders && o.lot == lot ==> o.status != OS.Dispute))
            && (r.Some? ==>
                  var price, t := s.lots[lot].price, r.value;
                  var o := Order(id, lot, buyer, s.lots[lot].seller, OS.WaitingTrade, price,
                                 ST.Hold(price, 0, 0, None, None), Paid(price, 0, 0, 0, 0, 0), None);
                  && t.orders == s.orders + [o] && t.lots == s.lots[lot := s.lots[lot].(status := OS.Reserved)]
                  && t.createKeys == s.createKeys + {key} && t.stats == s.stats
                  && t.admitted == s.admitted - multiset{Admission(buyer, lot, key)}
                  && Pay(s, t, o, -price, -price, 0, 0))
  {
    if lot < |s.lots| && buyer < |s.ledger.wallets| && s.lots[lot].status == OS.Active {
      assert LotOk(s.lots[lot], |s.ledger.wallets|);
      OpenMeansDisputed(s, lot);
      assert IdUsed(s.orders, id) <==> exists o :: o in s.orders && o.id == id;
      if L.ReservePurchaseHold(s.ledger, buyer, s.lots[lot].price, L.OrderReserve(key)).Some? {
        L.ReserveEffect(s.ledger, buyer, s.lots[lot].price, L.OrderReserve(key));
      }
    }
  }

  lemma OpenMeansDisputed(s: State, lot: nat)
    requires LotInv(s) && lot < |s.lots| && s.lots[lot].status == OS.Active
    ensures HasOpenOrder(s.orders, lot) <==> exists o :: o in s.orders && o.lot == lot && o.status == OS.Dispute
  {
    forall i | 0 <= i < |s.orders| && s.orders[i].lot == lot
      ensures BlocksPurchase(s.orders[i].status) <==> s.orders[i].status == OS.Dispute
    {
      assert OrderOk(s, i);
    }
  }

  /** Listing takes effect exactly at a good price, unless the asset is on sale or reserved; the asset then has one
      lot on sale at that price, and every other lot is as before. */
  lemma ListOutcome(s: State, seller: L.UserId, asset: nat, price: int, commission: int)
    ensures var r := Apply(s, ListAsset(seller, asset, price, commission));
            && (r.Some? ==>
                  var t := r.value;
                  && t == s.(lots := t.lots) && |s.lots| <= |t.lots|
                  && (exists i: nat :: OnSale(t.lots, i, asset, price, commission)
                                  && (i < |s.lots| ==> t.lots[i].seller == s.lots[i].seller && s.lots[i].asset == asset)
                                  && (i == |s.lots| ==> t.lots[i].seller == seller)
                                  && forall k :: 0 <= k < |s.lots| && k != i ==> t.lots[k] == s.lots[k]))
    ensures (forall i, k :: 0 <= i < k < |s.lots| ==> s.lots[i].asset != s.lots[k].asset) ==>
              (Apply(s, ListAsset(seller, asset, price, commission)).Some?
               <==> && 0 < price && 0 <= commission <= price && seller < |s.ledger.wallets|
                    && forall l :: l in s.lots && l.asset == asset ==> l.status !in {OS.Active, OS.Reserved})
  {
    var i := LotOf(s.lots, asset);
    if Apply(s, ListAsset(seller, asset, price, commission)).Some? {
      assert OnSale(Step(s, ListAsset(seller, asset, price, commission)).lots, i, asset, price, commission);
    }
  }

  predicate OnSale(lots: seq<Lot>, i: nat, asset: nat, price: int, commission: int) {
    && i < |lots| && lots[i].asset == asset && lots[i].status == OS.Active
    && lots[i].price == price && lots[i].commission == commission && lots[i].sellerReceive == price - commission
  }

  /** Where a lot call takes a lot from its status, if anywhere. */
  function LotGoes(a: Action, from: OS.LotStatus): Option<OS.LotStatus> {
    match a
    case CancelLot(_) => if from in {OS.Draft, OS.Active} then Some(OS.LotCanceled) else None
    case BlockLot(_) => if from == OS.Active then Some(OS.Blocked) else None
    case UnblockLot(_) => if from == OS.Blocked then Some(OS.Active) else None
    case AdminCancelLot(_) => if from == OS.Active then Some(OS.LotCanceled) else None
    case _ => None
  }

  lemma LotOutcome(s: State, a: Action)
    requires a.CancelLot? || a.BlockLot? || a.UnblockLot? || a.AdminCancelLot?
    ensures Apply(s, a)
            == if a.lot < |s.lots| && LotGoes(a, s.lots[a.lot].status).Some?
               then Some(s.(lots := s.lots[a.lot := s.lots[a.lot].(status := LotGoes(a, s.lots[a.lot].status).value)]))
               else None
  {
  }

  /** A new price splits into the seller's share and the commission, and is taken exactly while the lot is on sale. */
  lemma PriceOutcome(s: State, l: nat, price: int, commission: int)
    ensures Apply(s, UpdatePrice(l, price, commission))
            == if l < |s.lots| && s.lots[l].status == OS.Active && 0 < price && 0 <= commission <= price
               then Some(s.(lots := s.lots[l := s.lots[l].(price := price, commission := commission,
                                                           sellerReceive := price - commission)]))
               else None
  {
  }
}
