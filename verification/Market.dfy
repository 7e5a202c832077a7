/**
 Orders, lots, holds and money as one state machine: every service call that lists, buys, cancels,
 confirms, holds, releases, reverses, disputes or resolves is one transaction on these rows
 (orders.service.ts, lots.service.ts, settlement.service.ts, admin.service.ts, dispute-ops.service.ts,
 trades.service.ts). A call that throws rolls back, so it changes nothing. Only a purchase takes two steps:
 it looks its idempotency key up before its transaction, and any other call may commit in between.
 */
module Market {
  import opened Common
  import OS = OrderStates
  import ST = Settlement
  import L = Ledger

  /** A day in UTC, by its number; the statistics rows carry its date text. */
  type Day = int

  datatype Lot = Lot(
    seller: L.UserId,
    asset: nat,
    status: OS.LotStatus,
    price: int,
    commission: int,
    sellerReceive: int)

  /** What the ledger entries of one order add up to, and how many payouts there were. */
  datatype Paid = Paid(reserved: int, refunded: int, seller: int, platform: int, refunds: nat, settlements: nat)

  datatype Order = Order(
    id: string,
    lot: nat,
    buyer: L.UserId,
    seller: L.UserId,
    status: OS.OrderStatus,
    amount: int,
    hold: ST.Hold,
    paid: Paid,
    settledOn: Option<Day>)

  datatype DayStats = DayStats(orderCount: nat, volume: int)

  /** A purchase whose idempotency key was looked up and not found, before its transaction. */
  datatype Admission = Admission(buyer: L.UserId, lot: nat, key: string)

  datatype State = State(
    lots: seq<Lot>,
    orders: seq<Order>,
    ledger: L.Book,
    stats: map<Day, DayStats>,
    createKeys: set<string>,
    admitted: multiset<Admission>)

  datatype Action =
    | ListAsset(seller: L.UserId, asset: nat, price: int, commission: int)
    | UpdatePrice(lot: nat, price: int, commission: int)
    | CancelLot(lot: nat)
    | BlockLot(lot: nat)
    | UnblockLot(lot: nat)
    | AdminCancelLot(lot: nat)
    | AdmitCreate(buyer: L.UserId, lot: nat, key: string)
    | CreateOrder(id: string, buyer: L.UserId, lot: nat, key: string)
    | CancelOrder(order: nat, key: string, sendStarted: bool)
    | FailSafe(order: nat, reason: string)
    | ConfirmDelivery(order: nat)
    | EnterHold(order: nat, until: ST.Time, delivered: bool)
    | Settle(order: nat, entry: ST.EntryPoint, config: ST.Config, evidence: ST.Evidence, clock: ST.Clock,
             guardDay: Day, statsDay: Day)
    | ReverseHold(order: nat)
    | OpenDispute(order: nat)
    | OpenSystemDispute(order: nat)
    | ResolveBuyer(order: nat, key: string)
    | ResolveSeller(order: nat, key: string)
    | ReserveRequest(user: L.UserId, amount: int)
    | ReleaseRequest(user: L.UserId, amount: int)

  // ----- Listings -----

  /** A listing splits its price into commission and seller share. */
  predicate GoodPrice(price: int, commission: int) {
    price > 0 && 0 <= commission <= price
  }

  function Priced(lot: Lot, price: int, commission: int): Lot {
    lot.(price := price, commission := commission, sellerReceive := price - commission)
  }

  /** The lot of an asset; the asset column is unique, so there is at most one. */
  function LotOf(lots: seq<Lot>, asset: nat): (i: nat)
    ensures i <= |lots|
    ensures i < |lots| ==> lots[i].asset == asset
    ensures forall k :: 0 <= k < i ==> lots[k].asset != asset
  {
    if lots == [] then 0 else if lots[0].asset == asset then 0 else 1 + LotOf(lots[1..], asset)
  }

  /** listAssetInTransaction: relist the asset's lot, or create one. An active or reserved lot is in the way. */
  function DoList(s: State, seller: L.UserId, asset: nat, price: int, commission: int): Option<State> {
    var i := LotOf(s.lots, asset);
    if !GoodPrice(price, commission) || seller >= |s.ledger.wallets| then None
    else if i == |s.lots| then
      Some(s.(lots := s.lots + [Priced(Lot(seller, asset, OS.Active, 0, 0, 0), price, commission)]))
    else if s.lots[i].status.Active? || s.lots[i].status.Reserved? then None
    else Some(s.(lots := s.lots[i := Priced(s.lots[i], price, commission).(status := OS.Active)]))
  }

  function SetLot(s: State, i: nat, status: OS.LotStatus): State
    requires i < |s.lots|
  {
    s.(lots := s.lots[i := s.lots[i].(status := status)])
  }

  /** A lot call that only runs on lots in status `from`, and moves them along the lot table. */
  function MoveLotFrom(s: State, i: nat, from: OS.LotStatus, to: OS.LotStatus): Option<State> {
    if i < |s.lots| && s.lots[i].status == from && to in OS.LotNext(from) then Some(SetLot(s, i, to)) else None
  }

  // ----- Orders -----

  predicate GoodOrder(s: State, i: nat) {
    && i < |s.orders|
    && s.orders[i].lot < |s.lots|
    && s.orders[i].buyer < |s.ledger.wallets|
    && s.orders[i].seller < |s.ledger.wallets|
  }

  function LotStatusOf(s: State, i: nat): OS.LotStatus
    requires GoodOrder(s, i)
  {
    s.lots[s.orders[i].lot].status
  }

  /** Writes an order, the status of its lot, and the ledger. */
  function Put(s: State, i: nat, o: Order, lotStatus: OS.LotStatus, ledger: L.Book): State
    requires GoodOrder(s, i) && o.lot == s.orders[i].lot
  {
    SetLot(s.(orders := s.orders[i := o], ledger := ledger), o.lot, lotStatus)
  }

  /** The statuses whose orders keep a buyer from creating another order; SettlementHold is not among them. */
  predicate BlocksPurchase(status: OS.OrderStatus) {
    status in {OS.Created, OS.PaymentReserved, OS.WaitingTrade, OS.TradeConfirmed, OS.Dispute}
  }

  predicate IdUsed(orders: seq<Order>, id: string) {
    exists i :: 0 <= i < |orders| && orders[i].id == id
  }

  /** The lookup of another open order on the lot. */
  predicate HasOpenOrder(orders: seq<Order>, lot: nat) {
    exists i :: 0 <= i < |orders| && orders[i].lot == lot && BlocksPurchase(orders[i].status)
  }

  /** The audit lookup of `create`, outside its transaction: only an unused key goes on. */
  function DoAdmit(s: State, buyer: L.UserId, lot: nat, key: string): Option<State> {
    if key in s.createKeys then None
    else Some(s.(admitted := s.admitted + multiset{Admission(buyer, lot, key)}))
  }

  /** The transaction of `create`; nothing in it looks at the audit again. */
  function DoCreate(s: State, id: string, buyer: L.UserId, lot: nat, key: string): Option<State> {
    if Admission(buyer, lot, key) !in s.admitted || lot >= |s.lots| || buyer >= |s.ledger.wallets| then None
    else if IdUsed(s.orders, id) then None
    else if !s.lots[lot].status.Active? || s.lots[lot].seller == buyer then None
    else if HasOpenOrder(s.orders, lot) then None
    else
      var price := s.lots[lot].price;
      match L.ReservePurchaseHold(s.ledger, buyer, price, L.OrderReserve(key))
      case None => None
      case Some(m) =>
        var o := Order(id, lot, buyer, s.lots[lot].seller, OS.WaitingTrade, price,
                       ST.Hold(price, 0, 0, None, None),
                       Paid(if m.moved then price else 0, 0, 0, 0, 0, 0), None);
        Some(SetLot(s.(orders := s.orders + [o], ledger := m.book, createKeys := s.createKeys + {key},
                       admitted := s.admitted - multiset{Admission(buyer, lot, key)}),
                    lot, OS.Reserved))
  }

  function Refunded(o: Order, moved: bool): Order {
    if moved
    then o.(paid := o.paid.(refunded := o.paid.refunded + o.hold.amount, refunds := o.paid.refunds + 1))
    else o
  }

  function Settled(o: Order, lot: Lot, moved: bool): Order {
    if moved
    then o.(paid := o.paid.(seller := o.paid.seller + lot.sellerReceive,
                            platform := o.paid.platform + lot.commission,
                            settlements := o.paid.settlements + 1))
    else o
  }

  /** cancel: the lot returns to sale; the hold row itself is not touched. */
  function DoCancel(s: State, i: nat, key: string, sendStarted: bool): Option<State> {
    if !GoodOrder(s, i) then None
    else
      var o := s.orders[i];
      if !OS.IsOpen(o.status) || o.status == OS.TradeConfirmed || sendStarted then None
      else if OS.RuleFor(o.status, OS.CancelEvent).None? then None
      else
        match L.RefundHold(s.ledger, o.buyer, o.hold.amount, L.OrderCancel(key))
        case None => None
        case Some(m) =>
          if OS.Active !in OS.LotNext(LotStatusOf(s, i)) then None
          else Some(Put(s, i, Refunded(o, m.moved).(status := OS.Canceled), OS.Active, m.book))
  }

  function DoFailSafe(s: State, i: nat, reason: string): Option<State> {
    if !GoodOrder(s, i) || s.orders[i].status != OS.WaitingTrade then None
    else
      var o := s.orders[i];
      match L.RefundHold(s.ledger, o.buyer, o.hold.amount, L.FailSafe(o.id, reason))
      case None => None
      case Some(m) =>
        if OS.Active !in OS.LotNext(LotStatusOf(s, i)) then None
        else
          var refunded := Refunded(o, m.moved).(hold := o.hold.(released := o.hold.amount));
          Some(Put(s, i, refunded.(status := OS.Failed), OS.Active, m.book))
  }

  function DoConfirm(s: State, i: nat): Option<State> {
    if GoodOrder(s, i) && s.orders[i].status == OS.WaitingTrade
    then Some(s.(orders := s.orders[i := s.orders[i].(status := OS.TradeConfirmed)]))
    else None
  }

  /** enterSettlementHold: the hold deadline and the audit that keeps a second entry out are written together. */
  function DoEnterHold(s: State, i: nat, until: ST.Time, delivered: bool): Option<State> {
    if && GoodOrder(s, i) && s.orders[i].status == OS.TradeConfirmed && delivered
       && s.orders[i].hold.holdUntil.None?
    then Some(s.(orders := s.orders[i := s.orders[i].(status := OS.SettlementHold,
                                                      hold := s.orders[i].hold.(holdUntil := Some(until)))]))
    else None
  }

  /** The order as loadOrder shows it to the settlement service. */
  function View(s: State, i: nat): ST.OrderView
    requires GoodOrder(s, i)
  {
    var o := s.orders[i];
    ST.OrderView(o.id, o.status, o.amount, o.amount, o.hold,
                 s.lots[o.lot].sellerReceive, s.lots[o.lot].commission)
  }

  function StatsOn(stats: map<Day, DayStats>, day: Day): DayStats {
    if day in stats then stats[day] else DayStats(0, 0)
  }

  /** The evidence of a settlement call, with the parts that come from these rows filled in. */
  function Witnessed(s: State, i: nat, e: ST.Evidence, guardDay: Day): ST.Evidence
    requires GoodOrder(s, i)
  {
    var o := s.orders[i];
    e.(alreadySettled := o.paid.settlements > 0,
       orderCount := StatsOn(s.stats, guardDay).orderCount,
       volume := StatsOn(s.stats, guardDay).volume,
       reserveSum := -o.paid.reserved)
  }

  function Incremented(stats: map<Day, DayStats>, day: Day, amount: int): map<Day, DayStats> {
    var d := StatsOn(stats, day);
    stats[day := DayStats(d.orderCount + 1, d.volume + amount)]
  }

  /** releaseSettlementHold, once its checks passed. */
  function DoPayOut(s: State, i: nat, paidAt: ST.Time, statsDay: Day): Option<State>
    requires GoodOrder(s, i)
  {
    if !L.HasPlatform(s.ledger) then None
    else
      var o := s.orders[i];
      var lot := s.lots[o.lot];
      match L.SettleSale(s.ledger, o.buyer, o.seller, o.hold.amount, lot.sellerReceive, lot.commission,
                         L.SettlementRelease(o.id))
      case None => None
      case Some(m) =>
        if OS.Sold !in OS.LotNext(lot.status) then None
        else
          var done := Settled(o, lot, m.moved).(
            status := OS.Completed,
            hold := o.hold.(captured := o.hold.amount, releasedAt := Some(paidAt)),
            settledOn := Some(statsDay));
          Some(Put(s, i, done, OS.Sold, m.book).(stats := Incremented(s.stats, statsDay, o.amount)))
  }

  function DoSettle(s: State, i: nat, entry: ST.EntryPoint, c: ST.Config, e: ST.Evidence, t: ST.Clock,
                    guardDay: Day, statsDay: Day): Option<State>
  {
    if !GoodOrder(s, i) then None
    else
      match ST.Verdicts(entry, c, View(s, i), Witnessed(s, i, e, guardDay), t)
      case Keep => None
      case Enter(until) => DoEnterHold(s, i, until, ST.IsDeliveryVerified(e.operation))
      case Pay => DoPayOut(s, i, t.paid, statsDay)
  }

  function DoReverse(s: State, i: nat): Option<State> {
    if !GoodOrder(s, i) || s.orders[i].status != OS.SettlementHold then None
    else
      var o := s.orders[i];
      if o.hold.captured > 0 || o.hold.releasedAt.Some? || OS.Blocked !in OS.LotNext(LotStatusOf(s, i)) then None
      else
        var refund := o.hold.amount - o.hold.released;
        var reversed := o.(status := OS.Dispute, hold := o.hold.(released := o.hold.amount));
        if refund <= 0 then Some(Put(s, i, reversed, OS.Blocked, s.ledger))
        else
          match L.RefundHold(s.ledger, o.buyer, refund, L.HoldReverse(o.id))
          case None => None
          case Some(m) =>
            var paid := if m.moved then o.paid.(refunded := o.paid.refunded + refund, refunds := o.paid.refunds + 1)
                        else o.paid;
            Some(Put(s, i, reversed.(paid := paid), OS.Blocked, m.book))
  }

  function DoDispute(s: State, i: nat): Option<State> {
    if !GoodOrder(s, i) || OS.Dispute !in OS.AllowedNext(s.orders[i].status)
       || OS.Blocked !in OS.LotNext(LotStatusOf(s, i))
    then None
    else Some(Put(s, i, s.orders[i].(status := OS.Dispute), OS.Blocked, s.ledger))
  }

  predicate CanAutoOpenFrom(status: OS.OrderStatus) {
    status in {OS.WaitingTrade, OS.TradeConfirmed, OS.SettlementHold}
  }

  function DoResolveBuyer(s: State, i: nat, key: string): Option<State> {
    if !GoodOrder(s, i) || s.orders[i].status != OS.Dispute then None
    else
      var o := s.orders[i];
      if o.hold.captured > 0 || o.hold.amount - o.hold.released <= 0 then None
      else
        match L.RefundHold(s.ledger, o.buyer, o.hold.amount, L.ResolveBuyer(key))
        case None => None
        case Some(m) =>
          if !LotStatusOf(s, i).Blocked? && OS.Blocked !in OS.LotNext(LotStatusOf(s, i)) then None
          else
            var refunded := Refunded(o, m.moved).(hold := o.hold.(released := o.hold.amount));
            Some(Put(s, i, refunded.(status := OS.Failed), OS.Blocked, m.book))
  }

  function DoResolveSeller(s: State, i: nat, key: string): Option<State> {
    if !GoodOrder(s, i) || s.orders[i].status != OS.Dispute || !L.HasPlatform(s.ledger) then None
    else
      var o := s.orders[i];
      var lot := s.lots[o.lot];
      if o.hold.captured > 0 || lot.sellerReceive + lot.commission != o.hold.amount then None
      else
        match L.SettleSale(s.ledger, o.buyer, o.seller, o.hold.amount, lot.sellerReceive, lot.commission,
                           L.ResolveSeller(key))
        case None => None
        case Some(m) =>
          if OS.Sold !in OS.LotNext(lot.status) then None
          else
            var done := Settled(o, lot, m.moved).(hold := o.hold.(captured := o.hold.amount));
            Some(Put(s, i, done.(status := OS.Completed), OS.Sold, m.book))
  }

  /** One service call; None when it throws or has nothing to do. */
  function Apply(s: State, a: Action): Option<State> {
    match a
    case ListAsset(seller, asset, price, commission) => DoList(s, seller, asset, price, commission)
    case UpdatePrice(lot, price, commission) =>
      if lot < |s.lots| && s.lots[lot].status.Active? && GoodPrice(price, commission)
      then Some(s.(lots := s.lots[lot := Priced(s.lots[lot], price, commission)]))
      else None
    case CancelLot(lot) =>
      if lot < |s.lots| then MoveLotFrom(s, lot, s.lots[lot].status, OS.LotCanceled) else None
    case BlockLot(lot) => MoveLotFrom(s, lot, OS.Active, OS.Blocked)
    case UnblockLot(lot) => MoveLotFrom(s, lot, OS.Blocked, OS.Active)
    case AdminCancelLot(lot) => MoveLotFrom(s, lot, OS.Active, OS.LotCanceled)
    case AdmitCreate(buyer, lot, key) => DoAdmit(s, buyer, lot, key)
    case CreateOrder(id, buyer, lot, key) => DoCreate(s, id, buyer, lot, key)
    case CancelOrder(i, key, sendStarted) => DoCancel(s, i, key, sendStarted)
    case FailSafe(i, reason) => DoFailSafe(s, i, reason)
    case ConfirmDelivery(i) => DoConfirm(s, i)
    case EnterHold(i, until, delivered) => DoEnterHold(s, i, until, delivered)
    case Settle(i, entry, c, e, t, guardDay, statsDay) => DoSettle(s, i, entry, c, e, t, guardDay, statsDay)
    case ReverseHold(i) => DoReverse(s, i)
    case OpenDispute(i) => DoDispute(s, i)
    case OpenSystemDispute(i) =>
      if GoodOrder(s, i) && CanAutoOpenFrom(s.orders[i].status) then DoDispute(s, i) else None
    case ResolveBuyer(i, key) => DoResolveBuyer(s, i, key)
    case ResolveSeller(i, key) => DoResolveSeller(s, i, key)
    case ReserveRequest(u, amount) =>
      if u < |s.ledger.wallets| && L.ReserveForRequest(s.ledger, u, amount).Some?
      then Some(s.(ledger := L.ReserveForRequest(s.ledger, u, amount).value)) else None
    case ReleaseRequest(u, amount) =>
      if u < |s.ledger.wallets| && L.ReleaseForRequest(s.ledger, u, amount).Some?
      then Some(s.(ledger := L.ReleaseForRequest(s.ledger, u, amount).value)) else None
  }

  function Step(s: State, a: Action): State {
    Apply(s, a).GetOr(s)
  }

  function Run(s: State, acts: seq<Action>): State
    decreases |acts|
  {
    if acts == [] then s else Run(Step(s, acts[0]), acts[1..])
  }

  /** A market before its first order, with nothing reserved. */
  ghost predicate Initial(s: State) {
    && s.orders == [] && s.stats == map[] && s.createKeys == {} && s.admitted == multiset{}
    && s.ledger.keys == {} && L.HasPlatform(s.ledger)
    && (forall u :: 0 <= u < |s.ledger.wallets| ==>
          s.ledger.wallets[u].available >= 0 && s.ledger.wallets[u].held == 0 && s.ledger.wallets[u].forRequests == 0)
    && (forall l :: 0 <= l < |s.lots| ==> LotOk(s.lots[l], |s.ledger.wallets|))
  }

  // ----- Lots and orders agree -----

  predicate InTrade(status: OS.OrderStatus) {
    status in {OS.PaymentReserved, OS.WaitingTrade, OS.TradeConfirmed, OS.SettlementHold}
  }

  predicate LotOk(lot: Lot, users: nat) {
    && lot.seller < users && GoodPrice(lot.price, lot.commission)
    && lot.sellerReceive == lot.price - lot.commission
  }

  /** An order in trade has its lot reserved at the order's amount; a disputed order's lot is not reserved. */
  predicate Fits(o: Order, lot: Lot) {
    && o.status != OS.Created
    && (InTrade(o.status) ==> lot.status.Reserved? && lot.price == o.amount)
    && (o.status == OS.Dispute ==> !lot.status.Reserved?)
  }

  predicate OrderOk(s: State, i: nat) {
    GoodOrder(s, i) && Fits(s.orders[i], s.lots[s.orders[i].lot])
  }

  /** Orders `i` and `j` do not compete for one lot. */
  predicate Apart(orders: seq<Order>, i: nat, j: nat)
    requires i < |orders| && j < |orders|
  {
    orders[i].lot == orders[j].lot ==> !(OS.IsOpen(orders[i].status) && OS.IsOpen(orders[j].status))
  }

  ghost predicate LotInv(s: State) {
    && L.HasPlatform(s.ledger)
    && (forall l :: 0 <= l < |s.lots| ==> LotOk(s.lots[l], |s.ledger.wallets|))
    && (forall i :: 0 <= i < |s.orders| ==> OrderOk(s, i))
    && (forall i, j :: 0 <= i < |s.orders| && 0 <= j < |s.orders| && i != j ==> Apart(s.orders, i, j))
  }

  /** A write of one order and its lot keeps the agreement, if the two fit and no order is opened. */
  lemma PutKeepsLotInv(s: State, i: nat, o: Order, lotStatus: OS.LotStatus, ledger: L.Book)
    requires LotInv(s) && i < |s.orders| && OS.IsOpen(s.orders[i].status)
    requires o.lot == s.orders[i].lot && o.buyer == s.orders[i].buyer && o.seller == s.orders[i].seller
    requires |ledger.wallets| == |s.ledger.wallets|
    requires OrderOk(s, i) ==> Fits(o, s.lots[o.lot].(status := lotStatus))
    ensures OrderOk(s, i) && LotInv(Put(s, i, o, lotStatus, ledger))
  {
    assert OrderOk(s, i);
    var t := Put(s, i, o, lotStatus, ledger);
    forall k, j | 0 <= k < |t.orders| && 0 <= j < |t.orders| && k != j ensures Apart(t.orders, k, j) {
      assert Apart(s.orders, k, j);
    }
    forall k | 0 <= k < |t.orders| ensures OrderOk(t, k) {
      assert OrderOk(s, k);
      if k != i {
        assert Apart(s.orders, k, i);
      }
    }
  }

  lemma AdvanceKeepsLotInv(s: State, i: nat, o: Order)
    requires LotInv(s) && i < |s.orders| && InTrade(s.orders[i].status) && InTrade(o.status)
    requires o.lot == s.orders[i].lot && o.buyer == s.orders[i].buyer && o.seller == s.orders[i].seller
    requires o.amount == s.orders[i].amount
    ensures LotInv(s.(orders := s.orders[i := o]))
  {
    assert OrderOk(s, i);
    var t := s.(orders := s.orders[i := o]);
    forall k, j | 0 <= k < |t.orders| && 0 <= j < |t.orders| && k != j ensures Apart(t.orders, k, j) {
      assert Apart(s.orders, k, j);
    }
    forall k | 0 <= k < |t.orders| ensures OrderOk(t, k) {
      assert OrderOk(s, k);
    }
  }

  /** A lot that is not reserved has no order in trade, so it may change its price and status. */
  lemma FreeLotKeepsLotInv(s: State, l: nat, lot: Lot)
    requires LotInv(s) && l < |s.lots| && !s.lots[l].status.Reserved? && !lot.status.Reserved?
    requires LotOk(lot, |s.ledger.wallets|)
    ensures LotInv(s.(lots := s.lots[l := lot]))
  {
    var t := s.(lots := s.lots[l := lot]);
    forall k | 0 <= k < |t.orders| ensures OrderOk(t, k) {
      assert OrderOk(s, k);
    }
    forall k, j | 0 <= k < |t.orders| && 0 <= j < |t.orders| && k != j ensures Apart(t.orders, k, j) {
      assert Apart(s.orders, k, j);
    }
  }

  lemma LedgerKeepsLotInv(s: State, ledger: L.Book)
    requires LotInv(s) && |ledger.wallets| == |s.ledger.wallets|
    ensures LotInv(s.(ledger := ledger))
  {
    var t := s.(ledger := ledger);
    forall k | 0 <= k < |t.orders| ensures OrderOk(t, k) {
      assert OrderOk(s, k);
    }
    forall k, j | 0 <= k < |t.orders| && 0 <= j < |t.orders| && k != j ensures Apart(t.orders, k, j) {
      assert Apart(s.orders, k, j);
    }
  }

  lemma AdmitKeepsLotInv(s: State, buyer: L.UserId, lot: nat, key: string)
    requires LotInv(s) && DoAdmit(s, buyer, lot, key).Some?
    ensures LotInv(DoAdmit(s, buyer, lot, key).value)
  {
    var t := DoAdmit(s, buyer, lot, key).value;
    forall k | 0 <= k < |t.orders| ensures OrderOk(t, k) {
      assert OrderOk(s, k);
    }
    forall k, j | 0 <= k < |t.orders| && 0 <= j < |t.orders| && k != j ensures Apart(t.orders, k, j) {
      assert Apart(s.orders, k, j);
    }
  }

  lemma ListKeepsLotInv(s: State, seller: L.UserId, asset: nat, price: int, commission: int)
    requires LotInv(s) && DoList(s, seller, asset, price, commission).Some?
    ensures LotInv(DoList(s, seller, asset, price, commission).value)
  {
    var i := LotOf(s.lots, asset);
    if i == |s.lots| {
      var t := DoList(s, seller, asset, price, commission).value;
      forall k | 0 <= k < |t.orders| ensures OrderOk(t, k) {
        assert OrderOk(s, k);
      }
      forall k, j | 0 <= k < |t.orders| && 0 <= j < |t.orders| && k != j ensures Apart(t.orders, k, j) {
        assert Apart(s.orders, k, j);
      }
    } else {
      assert LotOk(s.lots[i], |s.ledger.wallets|);
      FreeLotKeepsLotInv(s, i, Priced(s.lots[i], price, commission).(status := OS.Active));
    }
  }

  /**
   Creation does not look for orders in settlement hold; such an order would have its lot reserved,
   and only active lots are bought.
   */
  lemma CreateKeepsLotInv(s: State, id: string, buyer: L.UserId, lot: nat, key: string)
    requires LotInv(s) && DoCreate(s, id, buyer, lot, key).Some?
    ensures LotInv(DoCreate(s, id, buyer, lot, key).value)
  {
    var t := DoCreate(s, id, buyer, lot, key).value;
    var n := |s.orders|;
    assert LotOk(s.lots[lot], |s.ledger.wallets|);
    forall k | 0 <= k < n ensures s.orders[k].lot == lot ==> !OS.IsOpen(s.orders[k].status) {
      assert OrderOk(s, k);
    }
    forall k | 0 <= k < |t.orders| ensures OrderOk(t, k) {
      if k < n {
        assert OrderOk(s, k);
      }
    }
    forall k, j | 0 <= k < |t.orders| && 0 <= j < |t.orders| && k != j ensures Apart(t.orders, k, j) {
      if k < n && j < n {
        assert Apart(s.orders, k, j);
      }
    }
  }

  lemma LotStepKeepsLotInv(s: State, a: Action)
    requires LotInv(s) && Apply(s, a).Some?
    requires a.ListAsset? || a.UpdatePrice? || a.CancelLot? || a.BlockLot? || a.UnblockLot? || a.AdminCancelLot?
    ensures LotInv(Step(s, a))
  {
    if a.ListAsset? {
      ListKeepsLotInv(s, a.seller, a.asset, a.price, a.commission);
    } else {
      assert LotOk(s.lots[a.lot], |s.ledger.wallets|);
      FreeLotKeepsLotInv(s, a.lot, Step(s, a).lots[a.lot]);
    }
  }

  /** The calls that close an order or move it to dispute. */
  predicate Closes(a: Action) {
    a.CancelOrder? || a.FailSafe? || a.ReverseHold? || a.OpenDispute? || a.OpenSystemDispute?
    || a.ResolveBuyer? || a.ResolveSeller?
  }

  lemma RefundingStepKeepsLotInv(s: State, a: Action)
    requires LotInv(s) && Apply(s, a).Some? && (a.CancelOrder? || a.FailSafe? || a.ResolveBuyer?)
    ensures LotInv(Step(s, a))
  {
    var i := a.order;
    assert OrderOk(s, i);
    var t := Step(s, a);
    PutKeepsLotInv(s, i, t.orders[i], t.lots[s.orders[i].lot].status, t.ledger);
  }

  lemma DisputingStepKeepsLotInv(s: State, a: Action)
    requires LotInv(s) && Apply(s, a).Some?
    requires a.ReverseHold? || a.OpenDispute? || a.OpenSystemDispute? || a.ResolveSeller?
    ensures LotInv(Step(s, a))
  {
    var i := a.order;
    assert OrderOk(s, i);
    var t := Step(s, a);
    PutKeepsLotInv(s, i, t.orders[i], t.lots[s.orders[i].lot].status, t.ledger);
  }

  lemma ClosingStepKeepsLotInv(s: State, a: Action)
    requires LotInv(s) && Apply(s, a).Some? && Closes(a)
    ensures LotInv(Step(s, a))
  {
    if a.CancelOrder? || a.FailSafe? || a.ResolveBuyer? {
      RefundingStepKeepsLotInv(s, a);
    } else {
      DisputingStepKeepsLotInv(s, a);
    }
  }

  lemma SettleKeepsLotInv(s: State, a: Action)
    requires LotInv(s) && Apply(s, a).Some? && a.Settle?
    ensures LotInv(Step(s, a))
  {
    var i := a.order;
    assert OrderOk(s, i);
    var t := Step(s, a);
    if ST.Verdicts(a.entry, a.config, View(s, i), Witnessed(s, i, a.evidence, a.guardDay), a.clock).Pay? {
      PutKeepsLotInv(s, i, t.orders[i], OS.Sold, t.ledger);
      var u := Put(s, i, t.orders[i], OS.Sold, t.ledger);
      assert t == u.(stats := t.stats);
      forall k | 0 <= k < |t.orders| ensures OrderOk(t, k) {
        assert OrderOk(u, k);
      }
    } else {
      AdvanceKeepsLotInv(s, i, t.orders[i]);
    }
  }

  lemma StepKeepsLotInv(s: State, a: Action)
    requires LotInv(s)
    ensures LotInv(Step(s, a))
  {
    if Apply(s, a).Some? {
      if Closes(a) {
        ClosingStepKeepsLotInv(s, a);
      } else if a.Settle? {
        SettleKeepsLotInv(s, a);
      } else if a.CreateOrder? {
        CreateKeepsLotInv(s, a.id, a.buyer, a.lot, a.key);
      } else if a.AdmitCreate? {
        AdmitKeepsLotInv(s, a.buyer, a.lot, a.key);
      } else if a.ConfirmDelivery? || a.EnterHold? {
        AdvanceKeepsLotInv(s, a.order, Step(s, a).orders[a.order]);
      } else if a.ReserveRequest? || a.ReleaseRequest? {
        LedgerKeepsLotInv(s, Step(s, a).ledger);
      } else {
        LotStepKeepsLotInv(s, a);
      }
    }
  }

  lemma {:induction false} RunKeepsLotInv(s: State, acts: seq<Action>)
    requires LotInv(s)
    ensures LotInv(Run(s, acts))
    decreases |acts|
  {
    if acts != [] {
      StepKeepsLotInv(s, acts[0]);
      RunKeepsLotInv(Step(s, acts[0]), acts[1..]);
    }
  }

  /**
   In every run a lot has at most one open order, and while an order is in trade its lot is reserved
   at the order's amount.
   */
  lemma OneOpenOrderPerLot(start: State, acts: seq<Action>, i: nat, j: nat)
    requires Initial(start)
    requires i < |Run(start, acts).orders| && j < |Run(start, acts).orders|
    ensures var s := Run(start, acts);
            && (i != j && s.orders[i].lot == s.orders[j].lot ==>
                  !(OS.IsOpen(s.orders[i].status) && OS.IsOpen(s.orders[j].status)))
            && s.orders[i].lot < |s.lots|
            && (InTrade(s.orders[i].status) ==>
                  s.lots[s.orders[i].lot].status == OS.Reserved
                  && s.lots[s.orders[i].lot].price == s.orders[i].amount)
  {
    RunKeepsLotInv(start, acts);
    assert OrderOk(Run(start, acts), i);
    if i != j {
      assert Apart(Run(start, acts).orders, i, j);
    }
  }
}
