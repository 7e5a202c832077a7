/** Where the money of an order goes, over every run of the market. */
module MarketMoney {
  import opened Common
  import OS = OrderStates
  import ST = Settlement
  import L = Ledger
  import opened Market

  // ----- The hold accounts carry exactly what the orders still freeze -----

  /** What an order keeps frozen in its buyer's hold account. */
  function Frozen(o: Order): int {
    o.paid.reserved - o.paid.refunded - o.paid.seller - o.paid.platform
  }

  function HeldBy(orders: seq<Order>, u: L.UserId): int {
    if orders == [] then 0
    else
      var last := orders[|orders| - 1];
      HeldBy(orders[..|orders| - 1], u) + (if last.buyer == u then Frozen(last) else 0)
  }

  lemma {:induction false} HeldByUpdate(orders: seq<Order>, i: nat, o: Order, u: L.UserId)
    requires i < |orders| && o.buyer == orders[i].buyer
    ensures HeldBy(orders[i := o], u)
            == HeldBy(orders, u) + (if o.buyer == u then Frozen(o) - Frozen(orders[i]) else 0)
  {
    var n := |orders| - 1;
    if i == n {
      assert orders[i := o][..n] == orders[..n];
    } else {
      assert orders[i := o][..n] == orders[..n][i := o];
      HeldByUpdate(orders[..n], i, o, u);
    }
  }

  ghost predicate HeldInv(s: State) {
    forall u :: 0 <= u < |s.ledger.wallets| ==>
      s.ledger.wallets[u].held == HeldBy(s.orders, u) + s.ledger.wallets[u].forRequests
      && s.ledger.wallets[u].forRequests >= 0
  }

  /** The calls that write exactly one existing order. */
  predicate WritesOrder(a: Action) {
    Closes(a) || a.Settle? || a.ConfirmDelivery? || a.EnterHold?
  }

  /** The ledger key under which a call refunds or settles, when it does. */
  function KeyOf(s: State, a: Action): L.Key
    requires WritesOrder(a) && GoodOrder(s, a.order)
  {
    match a
    case CancelOrder(_, key, _) => L.OrderCancel(key)
    case FailSafe(_, reason) => L.FailSafe(s.orders[a.order].id, reason)
    case ReverseHold(_) => L.HoldReverse(s.orders[a.order].id)
    case ResolveBuyer(_, key) => L.ResolveBuyer(key)
    case ResolveSeller(_, key) => L.ResolveSeller(key)
    case _ => L.SettlementRelease(s.orders[a.order].id)
  }

  /** Where an order is once it was settled, failed safely or reversed under a key of its own. */
  predicate Past(status: OS.OrderStatus) {
    status in {OS.Dispute, OS.Completed, OS.Failed}
  }

  /** The order whose id is part of the key. */
  function OwnerOf(key: L.Key): Option<string> {
    match key
    case SettlementRelease(id) => Some(id)
    case HoldReverse(id) => Some(id)
    case FailSafe(id, _) => Some(id)
    case SellerLeg(of) => OwnerOf(of)
    case PlatformLeg(of) => OwnerOf(of)
    case _ => None
  }

  /** The wallets gain exactly what the order newly records as refunded and paid out. */
  ghost predicate SharesMove(s: State, t: State, i: nat)
    requires i < |s.orders| && |t.orders| == |s.orders|
  {
    var was, now := s.orders[i].paid, t.orders[i].paid;
    && t.orders[i].seller == s.orders[i].seller && now.reserved == was.reserved
    && L.AvailableChange(s.ledger, t.ledger, s.orders[i].buyer, now.refunded - was.refunded,
                         s.orders[i].seller, now.seller - was.seller, now.platform - was.platform)
  }

  /** How a call on one order changes order and ledger together. */
  ghost predicate OneOrderWrite(s: State, t: State, i: nat, key: L.Key)
    requires i < |s.orders|
  {
    && |t.orders| == |s.orders| && t.orders == s.orders[i := t.orders[i]]
    && t.orders[i].buyer == s.orders[i].buyer && t.orders[i].id == s.orders[i].id
    && t.createKeys == s.createKeys
    && L.HeldChange(s.ledger, t.ledger, s.orders[i].buyer, Frozen(t.orders[i]) - Frozen(s.orders[i]))
    && SharesMove(s, t, i)
    && s.ledger.keys <= t.ledger.keys
    && t.ledger.keys <= s.ledger.keys + {(s.orders[i].buyer, key), (s.orders[i].seller, L.SellerLeg(key)),
                                         (L.PLATFORM, L.PlatformLeg(key))}
    && (Past(s.orders[i].status) ==> Past(t.orders[i].status))
    && (OwnerOf(key).Some? ==> OwnerOf(key).value == s.orders[i].id)
    && (s.ledger.keys != t.ledger.keys && OwnerOf(key).Some? ==> Past(t.orders[i].status))
  }

  /** Calls that refund: they differ in who may call them, in the key, and in where order and lot go. */
  lemma CancelingWrite(s: State, i: nat, key: string, sendStarted: bool)
    requires LotInv(s) && GoodOrder(s, i) && DoCancel(s, i, key, sendStarted).Some?
    ensures OneOrderWrite(s, DoCancel(s, i, key, sendStarted).value, i, L.OrderCancel(key))
  {
    L.RefundEffect(s.ledger, s.orders[i].buyer, s.orders[i].hold.amount, L.OrderCancel(key));
  }

  lemma FailingWrite(s: State, i: nat, reason: string)
    requires LotInv(s) && GoodOrder(s, i) && DoFailSafe(s, i, reason).Some?
    ensures OneOrderWrite(s, DoFailSafe(s, i, reason).value, i, L.FailSafe(s.orders[i].id, reason))
  {
    L.RefundEffect(s.ledger, s.orders[i].buyer, s.orders[i].hold.amount, L.FailSafe(s.orders[i].id, reason));
  }

  lemma ResolvingBuyerWrite(s: State, a: Action)
    requires LotInv(s) && Apply(s, a).Some? && a.ResolveBuyer?
    ensures GoodOrder(s, a.order) && OneOrderWrite(s, Step(s, a), a.order, KeyOf(s, a))
  {
    var o := s.orders[a.order];
    L.RefundEffect(s.ledger, o.buyer, o.hold.amount, KeyOf(s, a));
  }

  lemma ReversingWrite(s: State, a: Action)
    requires LotInv(s) && Apply(s, a).Some? && a.ReverseHold?
    ensures GoodOrder(s, a.order) && OneOrderWrite(s, Step(s, a), a.order, KeyOf(s, a))
  {
    var o := s.orders[a.order];
    if o.hold.amount - o.hold.released > 0 {
      L.RefundEffect(s.ledger, o.buyer, o.hold.amount - o.hold.released, KeyOf(s, a));
    }
  }

  lemma PayingWrite(s: State, i: nat, paidAt: ST.Time, day: Day)
    requires LotInv(s) && GoodOrder(s, i) && DoPayOut(s, i, paidAt, day).Some?
    requires s.orders[i].status != OS.Completed
    ensures OneOrderWrite(s, DoPayOut(s, i, paidAt, day).value, i, L.SettlementRelease(s.orders[i].id))
  {
    var o := s.orders[i];
    var lot := s.lots[o.lot];
    L.SettleEffect(s.ledger, o.buyer, o.seller, o.hold.amount, lot.sellerReceive, lot.commission,
                   L.SettlementRelease(o.id));
  }

  lemma ResolvingSellerWrite(s: State, a: Action)
    requires LotInv(s) && Apply(s, a).Some? && a.ResolveSeller?
    ensures GoodOrder(s, a.order) && OneOrderWrite(s, Step(s, a), a.order, KeyOf(s, a))
  {
    var o := s.orders[a.order];
    var lot := s.lots[o.lot];
    L.SettleEffect(s.ledger, o.buyer, o.seller, o.hold.amount, lot.sellerReceive, lot.commission, KeyOf(s, a));
  }

  predicate Pays(s: State, a: Action)
    requires a.Settle? && GoodOrder(s, a.order)
  {
    ST.Verdicts(a.entry, a.config, View(s, a.order), Witnessed(s, a.order, a.evidence, a.guardDay), a.clock).Pay?
  }

  lemma OrderWrite(s: State, a: Action)
    requires LotInv(s) && WritesOrder(a) && Apply(s, a).Some?
    ensures GoodOrder(s, a.order) && OneOrderWrite(s, Step(s, a), a.order, KeyOf(s, a))
  {
    if a.CancelOrder? {
      CancelingWrite(s, a.order, a.key, a.sendStarted);
    } else if a.FailSafe? {
      FailingWrite(s, a.order, a.reason);
    } else if a.ResolveBuyer? {
      ResolvingBuyerWrite(s, a);
    } else if a.ReverseHold? {
      ReversingWrite(s, a);
    } else if a.ResolveSeller? {
      ResolvingSellerWrite(s, a);
    } else if a.Settle? && Pays(s, a) {
      PayingWrite(s, a.order, a.clock.paid, a.statsDay);
    }
  }

  /** A ledger change that matches what happens to one order keeps the accounts exact. */
  lemma OrderWriteKeepsHeld(s: State, t: State, i: nat, key: L.Key)
    requires HeldInv(s) && i < |s.orders| && OneOrderWrite(s, t, i, key)
    ensures HeldInv(t)
  {
    forall u | 0 <= u < |t.ledger.wallets|
      ensures t.ledger.wallets[u].held == HeldBy(t.orders, u) + t.ledger.wallets[u].forRequests
    {
      HeldByUpdate(s.orders, i, t.orders[i], u);
    }
  }

  /** The calls that only write a lot, or only look up a key. */
  predicate MovesNoMoney(a: Action) {
    a.ListAsset? || a.UpdatePrice? || a.CancelLot? || a.BlockLot? || a.UnblockLot? || a.AdminCancelLot?
    || a.AdmitCreate?
  }

  lemma OthersMoveNoMoney(s: State, a: Action)
    requires MovesNoMoney(a) || a.ReserveRequest? || a.ReleaseRequest?
    ensures Step(s, a).orders == s.orders && Step(s, a).createKeys == s.createKeys
    ensures Step(s, a).ledger.keys == s.ledger.keys
    ensures MovesNoMoney(a) ==> Step(s, a).ledger == s.ledger
  {
  }

  lemma CreateKeepsHeld(s: State, a: Action)
    requires HeldInv(s) && a.CreateOrder? && Apply(s, a).Some?
    ensures HeldInv(Step(s, a)) && L.Total(Step(s, a).ledger.wallets) == L.Total(s.ledger.wallets)
  {
    L.ReserveEffect(s.ledger, a.buyer, s.lots[a.lot].price, L.OrderReserve(a.key));
    assert Step(s, a).orders[..|s.orders|] == s.orders;
  }

  lemma RequestKeepsHeld(s: State, a: Action)
    requires HeldInv(s) && (a.ReserveRequest? || a.ReleaseRequest?) && Apply(s, a).Some?
    ensures HeldInv(Step(s, a)) && L.Total(Step(s, a).ledger.wallets) == L.Total(s.ledger.wallets)
  {
    L.RequestsConserve(s.ledger, a.user, a.amount);
  }

  lemma WriteKeepsHeld(s: State, a: Action)
    requires LotInv(s) && HeldInv(s) && WritesOrder(a) && Apply(s, a).Some?
    ensures HeldInv(Step(s, a)) && L.Total(Step(s, a).ledger.wallets) == L.Total(s.ledger.wallets)
  {
    OrderWrite(s, a);
    OrderWriteKeepsHeld(s, Step(s, a), a.order, KeyOf(s, a));
  }

  lemma StepKeepsHeld(s: State, a: Action)
    requires LotInv(s) && HeldInv(s)
    ensures HeldInv(Step(s, a))
    ensures L.Total(Step(s, a).ledger.wallets) == L.Total(s.ledger.wallets)
  {
    if Apply(s, a).Some? {
      if WritesOrder(a) {
        WriteKeepsHeld(s, a);
      } else if a.CreateOrder? {
        CreateKeepsHeld(s, a);
      } else if MovesNoMoney(a) {
        OthersMoveNoMoney(s, a);
      } else {
        RequestKeepsHeld(s, a);
      }
    }
  }

  // ----- The available balances carry exactly what the orders recorded -----

  /** What a user has from one order: refunds less what was frozen as its buyer, its share as the seller, and the
      commission as the platform. */
  function NetOf(o: Order, u: L.UserId): int {
    (if o.buyer == u then o.paid.refunded - o.paid.reserved else 0)
    + (if o.seller == u then o.paid.seller else 0) + (if u == 0 then o.paid.platform else 0)
  }

  function Net(orders: seq<Order>, u: L.UserId): int {
    if orders == [] then 0 else Net(orders[..|orders| - 1], u) + NetOf(orders[|orders| - 1], u)
  }

  lemma {:induction false} NetUpdate(orders: seq<Order>, i: nat, o: Order, u: L.UserId)
    requires i < |orders|
    ensures Net(orders[i := o], u) == Net(orders, u) + NetOf(o, u) - NetOf(orders[i], u)
  {
    var n := |orders| - 1;
    if i == n {
      assert orders[i := o][..n] == orders[..n];
    } else {
      assert orders[i := o][..n] == orders[..n][i := o];
      NetUpdate(orders[..n], i, o, u);
    }
  }

  /** What is left of a user's balance when the orders' part is taken out: what buy requests reserved counts in. */
  function Outside(s: State, u: L.UserId): int
    requires u < |s.ledger.wallets|
  {
    s.ledger.wallets[u].available + s.ledger.wallets[u].forRequests - Net(s.orders, u)
  }

  lemma OrderWriteKeepsNet(s: State, a: Action, u: L.UserId)
    requires LotInv(s) && WritesOrder(a) && Apply(s, a).Some? && u < |s.ledger.wallets|
    ensures |Step(s, a).ledger.wallets| == |s.ledger.wallets| && Outside(Step(s, a), u) == Outside(s, u)
  {
    OrderWrite(s, a);
    NetUpdate(s.orders, a.order, Step(s, a).orders[a.order], u);
  }

  lemma CreateKeepsNet(s: State, a: Action, u: L.UserId)
    requires a.CreateOrder? && Apply(s, a).Some? && u < |s.ledger.wallets|
    ensures |Step(s, a).ledger.wallets| == |s.ledger.wallets| && Outside(Step(s, a), u) == Outside(s, u)
  {
    L.ReserveEffect(s.ledger, a.buyer, s.lots[a.lot].price, L.OrderReserve(a.key));
    assert Step(s, a).orders[..|s.orders|] == s.orders;
  }

  lemma RequestKeepsNet(s: State, a: Action, u: L.UserId)
    requires (a.ReserveRequest? || a.ReleaseRequest?) && Apply(s, a).Some? && u < |s.ledger.wallets|
    ensures |Step(s, a).ledger.wallets| == |s.ledger.wallets| && Outside(Step(s, a), u) == Outside(s, u)
  {
    L.RequestsConserve(s.ledger, a.user, a.amount);
    OthersMoveNoMoney(s, a);
  }

  lemma StepKeepsNet(s: State, a: Action, u: L.UserId)
    requires LotInv(s) && u < |s.ledger.wallets|
    ensures |Step(s, a).ledger.wallets| == |s.ledger.wallets| && Outside(Step(s, a), u) == Outside(s, u)
  {
    if Apply(s, a).Some? {
      if WritesOrder(a) {
        OrderWriteKeepsNet(s, a, u);
      } else if a.CreateOrder? {
        CreateKeepsNet(s, a, u);
      } else if MovesNoMoney(a) {
        OthersMoveNoMoney(s, a);
      } else {
        RequestKeepsNet(s, a, u);
      }
    }
  }

  lemma {:induction false} RunKeepsNet(s: State, acts: seq<Action>, u: L.UserId)
    requires LotInv(s) && u < |s.ledger.wallets|
    ensures |Run(s, acts).ledger.wallets| == |s.ledger.wallets| && Outside(Run(s, acts), u) == Outside(s, u)
    decreases |acts|
  {
    if acts != [] {
      StepKeepsNet(s, acts[0], u);
      StepKeepsLotInv(s, acts[0]);
      RunKeepsNet(Step(s, acts[0]), acts[1..], u);
    }
  }

  /**
   In every run, fair or not, each user's available balance is the starting balance less what the user's
   purchases and requests froze, plus the refunds, plus the seller shares recorded for orders the user sold;
   the platform's also holds every recorded commission.
   */
  lemma BalancesFollowTheOrders(start: State, acts: seq<Action>, u: L.UserId)
    requires Initial(start) && u < |start.ledger.wallets|
    ensures var s := Run(start, acts);
            && |s.ledger.wallets| == |start.ledger.wallets|
            && s.ledger.wallets[u].available
               == start.ledger.wallets[u].available - s.ledger.wallets[u].forRequests + Net(s.orders, u)
  {
    RunKeepsNet(start, acts, u);
  }

  // ----- No wallet is overdrawn -----

  lemma RefundingIsSolvent(s: State, a: Action)
    requires L.Solvent(s.ledger) && Apply(s, a).Some? && (a.CancelOrder? || a.FailSafe? || a.ResolveBuyer?)
    ensures L.Solvent(Step(s, a).ledger)
  {
    L.HoldsKeepSolvent(s.ledger, s.orders[a.order].buyer, s.orders[a.order].hold.amount, KeyOf(s, a));
  }

  lemma ReversingIsSolvent(s: State, i: nat)
    requires L.Solvent(s.ledger) && DoReverse(s, i).Some?
    ensures L.Solvent(DoReverse(s, i).value.ledger)
  {
    var o := s.orders[i];
    L.HoldsKeepSolvent(s.ledger, o.buyer, o.hold.amount - o.hold.released, L.HoldReverse(o.id));
  }

  lemma ResolvingIsSolvent(s: State, i: nat, key: string)
    requires LotInv(s) && L.Solvent(s.ledger) && DoResolveSeller(s, i, key).Some?
    ensures L.Solvent(DoResolveSeller(s, i, key).value.ledger)
  {
    var o := s.orders[i];
    var lot := s.lots[o.lot];
    assert LotOk(lot, |s.ledger.wallets|);
    L.SettlingKeepsSolvent(s.ledger, o.buyer, o.seller, o.hold.amount, lot.sellerReceive, lot.commission, L.ResolveSeller(key));
  }

  lemma PayingIsSolvent(s: State, i: nat, paidAt: ST.Time, day: Day)
    requires LotInv(s) && L.Solvent(s.ledger) && GoodOrder(s, i) && DoPayOut(s, i, paidAt, day).Some?
    ensures L.Solvent(DoPayOut(s, i, paidAt, day).value.ledger)
  {
    var o := s.orders[i];
    var lot := s.lots[o.lot];
    assert LotOk(lot, |s.ledger.wallets|);
    L.SettlingKeepsSolvent(s.ledger, o.buyer, o.seller, o.hold.amount, lot.sellerReceive, lot.commission,
                           L.SettlementRelease(o.id));
  }

  lemma SettlingIsSolvent(s: State, a: Action)
    requires LotInv(s) && L.Solvent(s.ledger) && a.Settle? && Apply(s, a).Some?
    ensures L.Solvent(Step(s, a).ledger)
  {
    if Pays(s, a) {
      PayingIsSolvent(s, a.order, a.clock.paid, a.statsDay);
    }
  }

  lemma OtherStepIsSolvent(s: State, a: Action)
    requires L.Solvent(s.ledger) && Apply(s, a).Some?
    requires !a.Settle? && !a.CancelOrder? && !a.FailSafe? && !a.ResolveBuyer? && !a.ReverseHold? && !a.ResolveSeller?
    ensures L.Solvent(Step(s, a).ledger)
  {
    match a
    case CreateOrder(_, buyer, lot, key) => L.HoldsKeepSolvent(s.ledger, buyer, s.lots[lot].price, L.OrderReserve(key));
    case ReserveRequest(u, amount) => L.HoldsKeepSolvent(s.ledger, u, amount, L.OrderReserve(""));
    case ReleaseRequest(u, amount) => L.HoldsKeepSolvent(s.ledger, u, amount, L.OrderReserve(""));
    case _ =>
  }

  lemma StepIsSolvent(s: State, a: Action)
    requires LotInv(s) && L.Solvent(s.ledger)
    ensures L.Solvent(Step(s, a).ledger)
  {
    if Apply(s, a).Some? {
      if a.CancelOrder? || a.FailSafe? || a.ResolveBuyer? {
        RefundingIsSolvent(s, a);
      } else if a.ReverseHold? {
        ReversingIsSolvent(s, a.order);
      } else if a.ResolveSeller? {
        ResolvingIsSolvent(s, a.order, a.key);
      } else if a.Settle? {
        SettlingIsSolvent(s, a);
      } else {
        OtherStepIsSolvent(s, a);
      }
    }
  }

  /** In every run, fair or not, no available balance and no hold account is ever overdrawn. */
  lemma {:induction false} NoWalletIsOverdrawn(s: State, acts: seq<Action>)
    requires LotInv(s) && L.Solvent(s.ledger)
    ensures L.Solvent(Run(s, acts).ledger)
    decreases |acts|
  {
    if acts != [] {
      StepIsSolvent(s, acts[0]);
      StepKeepsLotInv(s, acts[0]);
      NoWalletIsOverdrawn(Step(s, acts[0]), acts[1..]);
    }
  }

  // ----- One way for the money of an order -----

  /** Nothing was paid for the order yet. */
  predicate Untouched(o: Order) {
    o.hold.released == 0 && o.paid == Paid(o.amount, 0, 0, 0, 0, 0)
  }

  predicate RefundedOnce(o: Order) {
    o.paid == Paid(o.amount, o.amount, 0, 0, 1, 0)
  }

  predicate SettledOnce(o: Order) {
    && o.paid.reserved == o.amount && o.paid.refunded == 0 && o.paid.refunds == 0
    && o.paid.settlements == 1 && o.paid.seller + o.paid.platform == o.amount
  }

  /**
   The buyer's money stays frozen in full until one payout: a full refund, or the seller share plus
   the commission. A reversed settlement hold is refunded while its order is still in dispute.
   */
  predicate MoneyOk(o: Order) {
    && o.amount > 0 && o.hold.amount == o.amount
    && (o.status != OS.Completed ==> o.hold.captured == 0 && o.hold.releasedAt.None?)
    && match o.status
       case Completed => SettledOnce(o)
       case Failed | Canceled => RefundedOnce(o)
       case Dispute => Untouched(o) || (o.hold.released == o.amount && RefundedOnce(o))
       case _ => Untouched(o)
  }

  ghost predicate MoneyInv(s: State) {
    forall i :: 0 <= i < |s.orders| ==> MoneyOk(s.orders[i])
  }

  ghost predicate PastId(orders: seq<Order>, id: string) {
    exists i :: 0 <= i < |orders| && orders[i].id == id && Past(orders[i].status)
  }

  ghost predicate KeyInv(s: State) {
    && (forall p :: p in s.ledger.keys && p.1.OrderReserve? ==> p.1.k in s.createKeys)
    && (forall p :: p in s.ledger.keys && OwnerOf(p.1).Some? ==> PastId(s.orders, OwnerOf(p.1).value))
    && (forall i, j :: 0 <= i < j < |s.orders| ==> s.orders[i].id != s.orders[j].id)
  }

  ghost predicate Good(s: State) {
    LotInv(s) && HeldInv(s) && KeyInv(s) && MoneyInv(s)
  }

  /**
   What a caller must respect: the same buyer does not reuse an idempotency key for a second purchase,
   cancellation or resolution of the same kind, and a reversed hold is not settled for the seller.
   */
  predicate Fair(s: State, a: Action) {
    && (a.CreateOrder? ==> (a.buyer, L.OrderReserve(a.key)) !in s.ledger.keys)
    && (WritesOrder(a) && GoodOrder(s, a.order) ==>
          var o := s.orders[a.order];
          match a
          case CancelOrder(_, key, _) => (o.buyer, L.OrderCancel(key)) !in s.ledger.keys
          case ResolveBuyer(_, key) => (o.buyer, L.ResolveBuyer(key)) !in s.ledger.keys
          case ResolveSeller(_, key) => (o.buyer, L.ResolveSeller(key)) !in s.ledger.keys && o.hold.released == 0
          case _ => true)
  }

  /** Keys that carry an order's id are unused while the order is still running. */
  lemma OwnKeyIsFresh(s: State, i: nat, u: L.UserId, key: L.Key)
    requires KeyInv(s) && i < |s.orders| && !Past(s.orders[i].status) && OwnerOf(key) == Some(s.orders[i].id)
    ensures (u, key) !in s.ledger.keys
  {
    var p := (u, key);
    assert OwnerOf(p.1) == Some(s.orders[i].id);
  }

  /** A purchase that commits right after its key was looked up is fair. */
  lemma UnusedKeyIsFair(s: State, id: string, buyer: L.UserId, lot: nat, key: string)
    requires KeyInv(s) && key !in s.createKeys
    ensures Fair(s, CreateOrder(id, buyer, lot, key))
  {
    var p := (buyer, L.OrderReserve(key));
    assert p.1.OrderReserve? && p.1.k == key;
  }

  lemma CancelMoney(s: State, a: Action)
    requires Good(s) && Apply(s, a).Some? && a.CancelOrder?
    ensures MoneyOk(Step(s, a).orders[a.order]) <==> Fair(s, a)
  {
    var o := s.orders[a.order];
    assert MoneyOk(o);
    L.RefundEffect(s.ledger, o.buyer, o.hold.amount, KeyOf(s, a));
  }

  lemma ResolveBuyerMoney(s: State, a: Action)
    requires Good(s) && Apply(s, a).Some? && a.ResolveBuyer?
    ensures MoneyOk(Step(s, a).orders[a.order]) <==> Fair(s, a)
  {
    var o := s.orders[a.order];
    assert MoneyOk(o);
    L.RefundEffect(s.ledger, o.buyer, o.hold.amount, KeyOf(s, a));
  }

  lemma FailSafeMoney(s: State, a: Action)
    requires Good(s) && Apply(s, a).Some? && a.FailSafe?
    ensures MoneyOk(Step(s, a).orders[a.order])
  {
    var o := s.orders[a.order];
    assert MoneyOk(o);
    OwnKeyIsFresh(s, a.order, o.buyer, KeyOf(s, a));
    L.RefundEffect(s.ledger, o.buyer, o.hold.amount, KeyOf(s, a));
  }

  lemma ReverseMoney(s: State, a: Action)
    requires Good(s) && Apply(s, a).Some? && a.ReverseHold?
    ensures MoneyOk(Step(s, a).orders[a.order])
  {
    var o := s.orders[a.order];
    assert MoneyOk(o);
    OwnKeyIsFresh(s, a.order, o.buyer, KeyOf(s, a));
    L.RefundEffect(s.ledger, o.buyer, o.hold.amount, KeyOf(s, a));
  }

  lemma ResolveSellerMoney(s: State, a: Action)
    requires Good(s) && Apply(s, a).Some? && a.ResolveSeller?
    ensures MoneyOk(Step(s, a).orders[a.order]) <==> Fair(s, a)
  {
    var o := s.orders[a.order];
    var lot := s.lots[o.lot];
    assert MoneyOk(o);
    L.SettleEffect(s.ledger, o.buyer, o.seller, o.hold.amount, lot.sellerReceive, lot.commission, KeyOf(s, a));
  }

  lemma PayoutMoney(s: State, i: nat, paidAt: ST.Time, day: Day)
    requires Good(s) && GoodOrder(s, i) && s.orders[i].status == OS.SettlementHold
    requires DoPayOut(s, i, paidAt, day).Some?
    ensures MoneyOk(DoPayOut(s, i, paidAt, day).value.orders[i])
  {
    var o := s.orders[i];
    var lot := s.lots[o.lot];
    assert MoneyOk(o);
    OwnKeyIsFresh(s, i, o.buyer, L.SettlementRelease(o.id));
    L.SettleEffect(s.ledger, o.buyer, o.seller, o.hold.amount, lot.sellerReceive, lot.commission,
                   L.SettlementRelease(o.id));
  }

  lemma SettleMoney(s: State, a: Action)
    requires Good(s) && Apply(s, a).Some? && a.Settle?
    ensures MoneyOk(Step(s, a).orders[a.order])
  {
    assert MoneyOk(s.orders[a.order]);
    if Pays(s, a) {
      PayoutMoney(s, a.order, a.clock.paid, a.statsDay);
    }
  }

  lemma AdvanceMoney(s: State, a: Action)
    requires Good(s) && Apply(s, a).Some?
    requires a.ConfirmDelivery? || a.EnterHold? || a.OpenDispute? || a.OpenSystemDispute?
    ensures MoneyOk(Step(s, a).orders[a.order])
  {
    assert MoneyOk(s.orders[a.order]);
  }

  /** A call on an existing order moves its money correctly exactly when the call is fair. */
  lemma OrderWriteMoney(s: State, a: Action)
    requires Good(s) && WritesOrder(a) && Apply(s, a).Some?
    ensures MoneyOk(Step(s, a).orders[a.order]) <==> Fair(s, a)
  {
    if a.CancelOrder? {
      CancelMoney(s, a);
    } else if a.FailSafe? {
      FailSafeMoney(s, a);
    } else if a.ResolveBuyer? {
      ResolveBuyerMoney(s, a);
    } else if a.ReverseHold? {
      ReverseMoney(s, a);
    } else if a.ResolveSeller? {
      ResolveSellerMoney(s, a);
    } else if a.Settle? {
      SettleMoney(s, a);
    } else {
      AdvanceMoney(s, a);
    }
  }

  /**
   Over every effective step from a good state: all money still goes one way if and only if the step
   is fair.
   */
  lemma MoneyIsKeptExactlyByFairSteps(s: State, a: Action)
    requires Good(s) && Apply(s, a).Some?
    ensures MoneyInv(Step(s, a)) <==> Fair(s, a)
  {
    var t := Step(s, a);
    if WritesOrder(a) {
      OrderWrite(s, a);
      OrderWriteMoney(s, a);
      if MoneyOk(t.orders[a.order]) {
        forall k | 0 <= k < |t.orders| ensures MoneyOk(t.orders[k]) {
          assert k != a.order ==> MoneyOk(s.orders[k]);
        }
      } else {
        assert 0 <= a.order < |t.orders|;
      }
    } else if a.CreateOrder? {
      CreateMoney(s, a);
    } else {
      OthersMoveNoMoney(s, a);
    }
  }

  /** A purchase under a used reserve key is an order with nothing frozen. */
  lemma CreateMoney(s: State, a: Action)
    requires Good(s) && Apply(s, a).Some? && a.CreateOrder?
    ensures MoneyInv(Step(s, a)) <==> Fair(s, a)
  {
    var t := Step(s, a);
    var n := |s.orders|;
    L.ReserveEffect(s.ledger, a.buyer, s.lots[a.lot].price, L.OrderReserve(a.key));
    assert LotOk(s.lots[a.lot], |s.ledger.wallets|);
    assert MoneyOk(t.orders[n]) <==> Fair(s, a);
    if MoneyOk(t.orders[n]) {
      forall k | 0 <= k < |t.orders| ensures MoneyOk(t.orders[k]) {
        assert k < n ==> MoneyOk(s.orders[k]);
      }
    }
  }

  lemma OrderWriteKeepsKeys(s: State, t: State, i: nat, key: L.Key)
    requires KeyInv(s) && i < |s.orders| && OneOrderWrite(s, t, i, key) && !key.OrderReserve?
    ensures KeyInv(t)
  {
    forall p | p in t.ledger.keys && OwnerOf(p.1).Some? ensures PastId(t.orders, OwnerOf(p.1).value) {
      if p in s.ledger.keys {
        var k :| 0 <= k < |s.orders| && s.orders[k].id == OwnerOf(p.1).value && Past(s.orders[k].status);
        assert t.orders[k].id == OwnerOf(p.1).value;
      } else {
        assert t.orders[i].id == OwnerOf(p.1).value && Past(t.orders[i].status);
      }
    }
  }

  lemma CreateKeepsKeys(s: State, a: Action)
    requires KeyInv(s) && a.CreateOrder? && Apply(s, a).Some?
    ensures KeyInv(Step(s, a))
  {
    var t := Step(s, a);
    L.ReserveEffect(s.ledger, a.buyer, s.lots[a.lot].price, L.OrderReserve(a.key));
    forall p | p in t.ledger.keys && OwnerOf(p.1).Some? ensures PastId(t.orders, OwnerOf(p.1).value) {
      var k :| 0 <= k < |s.orders| && s.orders[k].id == OwnerOf(p.1).value && Past(s.orders[k].status);
      assert t.orders[k].id == OwnerOf(p.1).value;
    }
  }

  lemma OrderStepKeepsKeys(s: State, a: Action)
    requires LotInv(s) && KeyInv(s) && WritesOrder(a) && Apply(s, a).Some?
    ensures KeyInv(Step(s, a))
  {
    OrderWrite(s, a);
    OrderWriteKeepsKeys(s, Step(s, a), a.order, KeyOf(s, a));
  }

  lemma StepKeepsKeys(s: State, a: Action)
    requires LotInv(s) && KeyInv(s)
    ensures KeyInv(Step(s, a))
  {
    if Apply(s, a).Some? {
      if WritesOrder(a) {
        OrderStepKeepsKeys(s, a);
      } else if a.CreateOrder? {
        CreateKeepsKeys(s, a);
      } else {
        OthersMoveNoMoney(s, a);
      }
    }
  }

  lemma FairStepKeepsGood(s: State, a: Action)
    requires Good(s) && Fair(s, a)
    ensures Good(Step(s, a))
    ensures L.Total(Step(s, a).ledger.wallets) == L.Total(s.ledger.wallets)
  {
    StepKeepsLotInv(s, a);
    StepKeepsHeld(s, a);
    StepKeepsKeys(s, a);
    if Apply(s, a).Some? {
      MoneyIsKeptExactlyByFairSteps(s, a);
    }
  }

  ghost predicate FairRun(s: State, acts: seq<Action>)
    decreases |acts|
  {
    acts == [] || (Fair(s, acts[0]) && FairRun(Step(s, acts[0]), acts[1..]))
  }

  lemma {:induction false} FairRunKeepsGood(s: State, acts: seq<Action>)
    requires Good(s) && FairRun(s, acts)
    ensures Good(Run(s, acts))
    ensures L.Total(Run(s, acts).ledger.wallets) == L.Total(s.ledger.wallets)
    decreases |acts|
  {
    if acts != [] {
      FairStepKeepsGood(s, acts[0]);
      FairRunKeepsGood(Step(s, acts[0]), acts[1..]);
    }
  }

  /** Whatever the calls, fair or not, no run creates or destroys money, and the hold accounts stay exact. */
  lemma {:induction false} MoneyIsConserved(s: State, acts: seq<Action>)
    requires LotInv(s) && HeldInv(s)
    ensures L.Total(Run(s, acts).ledger.wallets) == L.Total(s.ledger.wallets)
    ensures HeldInv(Run(s, acts))
    decreases |acts|
  {
    if acts != [] {
      StepKeepsLotInv(s, acts[0]);
      StepKeepsHeld(s, acts[0]);
      MoneyIsConserved(Step(s, acts[0]), acts[1..]);
    }
  }

  /**
   In every fair run an order's money is frozen in full until it ends or is reversed, and then was
   paid out once: refunded in full, or split into seller share and commission.
   */
  lemma MoneyGoesOneWay(start: State, acts: seq<Action>, i: nat)
    requires Initial(start) && FairRun(start, acts)
    requires i < |Run(start, acts).orders|
    ensures var o := Run(start, acts).orders[i];
            && (OS.IsOpen(o.status) && o.hold.released == 0 ==> Frozen(o) == o.hold.amount == o.amount)
            && (OS.IsTerminal(o.status) ==> Frozen(o) == 0 && o.paid.refunds + o.paid.settlements == 1)
            && (o.status == OS.Completed ==> o.paid.seller + o.paid.platform == o.hold.amount)
            && (o.status == OS.Failed || o.status == OS.Canceled ==> o.paid.refunded == o.hold.amount)
    ensures L.Total(Run(start, acts).ledger.wallets) == L.Total(start.ledger.wallets)
  {
    FairRunKeepsGood(start, acts);
    assert OrderOk(Run(start, acts), i);
    assert MoneyOk(Run(start, acts).orders[i]);
  }

  // ----- Errors that cannot happen -----

  lemma {:induction false} HeldCoversOrder(orders: seq<Order>, i: nat)
    requires i < |orders| && forall k :: 0 <= k < |orders| ==> MoneyOk(orders[k])
    ensures HeldBy(orders, orders[i].buyer) >= Frozen(orders[i])
  {
    var n := |orders| - 1;
    assert MoneyOk(orders[n]);
    if i < n {
      assert orders[..n][i] == orders[i];
      HeldCoversOrder(orders[..n], i);
    } else {
      HeldIsNonNegative(orders[..n], orders[i].buyer);
    }
  }

  lemma {:induction false} HeldIsNonNegative(orders: seq<Order>, u: L.UserId)
    requires forall k :: 0 <= k < |orders| ==> MoneyOk(orders[k])
    ensures HeldBy(orders, u) >= 0
  {
    if orders != [] {
      assert MoneyOk(orders[|orders| - 1]);
      HeldIsNonNegative(orders[..|orders| - 1], u);
    }
  }

  /**
   In a fair run the hold account always covers an open order that was not reversed: refunding it
   never fails for lack of money, and settling it with its lot's own split does not either.
   */
  lemma HoldAccountSuffices(start: State, acts: seq<Action>, i: nat)
    requires Initial(start) && FairRun(start, acts)
    requires i < |Run(start, acts).orders|
    requires OS.IsOpen(Run(start, acts).orders[i].status) && Run(start, acts).orders[i].hold.released == 0
    ensures var s := Run(start, acts);
            var o := s.orders[i];
            && o.buyer < |s.ledger.wallets| && s.ledger.wallets[o.buyer].held >= o.hold.amount
            && (forall key :: L.RefundHold(s.ledger, o.buyer, o.hold.amount, key).Some?)
  {
    FairRunKeepsGood(start, acts);
    var s := Run(start, acts);
    assert OrderOk(s, i) && MoneyOk(s.orders[i]);
    HeldCoversOrder(s.orders, i);
  }

  /** In a fair run, an order in settlement hold always passes the guard's amount checks. */
  lemma HeldOrdersAreConsistent(start: State, acts: seq<Action>, i: nat, e: ST.Evidence, day: Day)
    requires Initial(start) && FairRun(start, acts)
    requires i < |Run(start, acts).orders| && Run(start, acts).orders[i].status == OS.SettlementHold
    ensures GoodOrder(Run(start, acts), i)
    ensures ST.FinanciallyConsistent(View(Run(start, acts), i), Witnessed(Run(start, acts), i, e, day).reserveSum)
  {
    FairRunKeepsGood(start, acts);
    var s := Run(start, acts);
    assert OrderOk(s, i) && MoneyOk(s.orders[i]);
    assert LotOk(s.lots[s.orders[i].lot], |s.ledger.wallets|);
  }
}
