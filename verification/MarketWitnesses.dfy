/**
 Runs that show why the conditions on money and budget are needed. In all of them user 1 starts with 300,
 and user 2 sells two lots at price 100, of which 5 are commission.
 */
module MarketWitnesses {
  import opened Common
  import OS = OrderStates
  import ST = Settlement
  import L = Ledger
  import opened Market
  import opened MarketMoney
  import opened MarketSettlement

  /** The run continues from the state its `k`-th action leads to. */
  lemma RunFrom(s: State, acts: seq<Action>, k: nat, t: State)
    requires k < |acts| && Step(s, acts[k]) == t
    ensures Run(s, acts[k..]) == Run(t, acts[k + 1..])
  {
    assert acts[k..][1..] == acts[k + 1..];
  }

  function Demo(first: OS.LotStatus, second: OS.LotStatus, orders: seq<Order>, wallets: seq<L.Wallet>,
                keys: set<(L.UserId, L.Key)>, stats: map<Day, DayStats>, createKeys: set<string>,
                admitted: multiset<Admission>): State
  {
    State([Lot(2, 0, first, 100, 5, 95), Lot(2, 1, second, 100, 5, 95)], orders, L.Book(wallets, keys),
          stats, createKeys, admitted)
  }

  /** Wallets of the platform, the buyer and the seller. */
  function Wallets(platform: int, available: int, held: int, seller: int): seq<L.Wallet> {
    [L.Wallet(platform, 0, 0), L.Wallet(available, held, 0), L.Wallet(seller, 0, 0)]
  }

  function DemoOrder(id: string, lot: nat, status: OS.OrderStatus, hold: ST.Hold, paid: Paid, settledOn: Option<Day>): Order {
    Order(id, lot, 1, 2, status, 100, hold, paid, settledOn)
  }

  const OPEN_HOLD: ST.Hold := ST.Hold(100, 0, 0, None, None)
  const ENTERED_HOLD: ST.Hold := ST.Hold(100, 0, 0, Some(0), None)
  const RESERVED: Paid := Paid(100, 0, 0, 0, 0, 0)
  const REFUNDED: Paid := Paid(100, 100, 0, 0, 1, 0)

  function Running(id: string, lot: nat, status: OS.OrderStatus, hold: ST.Hold): Order {
    DemoOrder(id, lot, status, hold, RESERVED, None)
  }

  const WAITING_A: Order := Running("a", 0, OS.WaitingTrade, OPEN_HOLD)
  const WAITING_B: Order := Running("b", 1, OS.WaitingTrade, OPEN_HOLD)

  const START: State := Demo(OS.Active, OS.Active, [], Wallets(0, 300, 0, 0), {}, map[], {}, multiset{})

  lemma StartIsInitial()
    ensures Initial(START)
  {
  }

  // ----- Two purchases -----

  const RESERVE_1: (L.UserId, L.Key) := (1, L.OrderReserve("k1"))
  const RESERVE_2: (L.UserId, L.Key) := (1, L.OrderReserve("k2"))

  const ADMITTED_A: State :=
    Demo(OS.Active, OS.Active, [], Wallets(0, 300, 0, 0), {}, map[], {}, multiset{Admission(1, 0, "k1")})
  const BOUGHT_A: State :=
    Demo(OS.Reserved, OS.Active, [WAITING_A], Wallets(0, 200, 100, 0), {RESERVE_1}, map[], {"k1"}, multiset{})
  const ADMITTED_B: State :=
    Demo(OS.Reserved, OS.Active, [WAITING_A], Wallets(0, 200, 100, 0), {RESERVE_1}, map[], {"k1"},
         multiset{Admission(1, 1, "k2")})
  const BOUGHT_BOTH: State :=
    Demo(OS.Reserved, OS.Reserved, [WAITING_A, WAITING_B], Wallets(0, 100, 200, 0), {RESERVE_1, RESERVE_2}, map[],
         {"k1", "k2"}, multiset{})

  const BUY_BOTH: seq<Action> :=
    [AdmitCreate(1, 0, "k1"), CreateOrder("a", 1, 0, "k1"), AdmitCreate(1, 1, "k2"), CreateOrder("b", 1, 1, "k2")]

  lemma BuyA()
    ensures Step(START, BUY_BOTH[0]) == ADMITTED_A && Step(ADMITTED_A, BUY_BOTH[1]) == BOUGHT_A
  {
    var t := DoCreate(ADMITTED_A, "a", 1, 0, "k1").value;
    assert t.lots == BOUGHT_A.lots && t.orders == BOUGHT_A.orders && t.ledger.wallets == BOUGHT_A.ledger.wallets;
    assert t.admitted == multiset{};
  }

  lemma BuyB()
    ensures Step(BOUGHT_A, BUY_BOTH[2]) == ADMITTED_B && Step(ADMITTED_B, BUY_BOTH[3]) == BOUGHT_BOTH
  {
    var t := DoCreate(ADMITTED_B, "b", 1, 1, "k2").value;
    assert t.lots == BOUGHT_BOTH.lots && t.orders == BOUGHT_BOTH.orders;
    assert t.ledger.wallets == BOUGHT_BOTH.ledger.wallets && t.ledger.keys == BOUGHT_BOTH.ledger.keys;
    assert t.createKeys == BOUGHT_BOTH.createKeys && t.admitted == multiset{};
  }

  /** A run that starts with both purchases continues from the state they lead to. */
  lemma BuyThen(acts: seq<Action>)
    ensures Run(START, BUY_BOTH + acts) == Run(BOUGHT_BOTH, acts)
  {
    var all := BUY_BOTH + acts;
    BuyA();
    BuyB();
    assert all[0..] == all && all[4..] == acts;
    RunFrom(START, all, 0, ADMITTED_A);
    RunFrom(ADMITTED_A, all, 1, BOUGHT_A);
    RunFrom(BOUGHT_A, all, 2, ADMITTED_B);
    RunFrom(ADMITTED_B, all, 3, BOUGHT_BOTH);
  }

  // ----- One key for two cancellations -----

  const CANCEL_KEY: (L.UserId, L.Key) := (1, L.OrderCancel("k"))

  const CANCELED_A: State :=
    Demo(OS.Active, OS.Reserved, [DemoOrder("a", 0, OS.Canceled, OPEN_HOLD, REFUNDED, None), WAITING_B],
         Wallets(0, 200, 100, 0), {RESERVE_1, RESERVE_2, CANCEL_KEY}, map[], {"k1", "k2"}, multiset{})
  const CANCELED_BOTH: State :=
    Demo(OS.Active, OS.Active,
         [DemoOrder("a", 0, OS.Canceled, OPEN_HOLD, REFUNDED, None), DemoOrder("b", 1, OS.Canceled, OPEN_HOLD, RESERVED, None)],
         Wallets(0, 200, 100, 0), {RESERVE_1, RESERVE_2, CANCEL_KEY}, map[], {"k1", "k2"}, multiset{})

  const CANCEL_BOTH: seq<Action> := [CancelOrder(0, "k", false), CancelOrder(1, "k", false)]

  lemma CancelA()
    ensures Step(BOUGHT_BOTH, CANCEL_BOTH[0]) == CANCELED_A
  {
    var t := DoCancel(BOUGHT_BOTH, 0, "k", false).value;
    assert t.lots == CANCELED_A.lots && t.orders == CANCELED_A.orders;
    assert t.ledger.wallets == CANCELED_A.ledger.wallets && t.ledger.keys == CANCELED_A.ledger.keys;
  }

  lemma CancelB()
    ensures Step(CANCELED_A, CANCEL_BOTH[1]) == CANCELED_BOTH
  {
    var t := DoCancel(CANCELED_A, 1, "k", false).value;
    assert t.lots == CANCELED_BOTH.lots && t.orders == CANCELED_BOTH.orders;
    assert t.ledger.wallets == CANCELED_BOTH.ledger.wallets && t.ledger.keys == CANCELED_BOTH.ledger.keys;
  }

  lemma CancelBoth()
    ensures Run(BOUGHT_BOTH, CANCEL_BOTH) == CANCELED_BOTH
  {
    CancelA();
    CancelB();
    assert CANCEL_BOTH[0..] == CANCEL_BOTH;
    RunFrom(BOUGHT_BOTH, CANCEL_BOTH, 0, CANCELED_A);
    RunFrom(CANCELED_A, CANCEL_BOTH, 1, CANCELED_BOTH);
  }

  /** An order ended canceled, and its money is still in the buyer's hold account. */
  predicate LostRefund(t: State) {
    && |t.orders| == 2 && |t.ledger.wallets| == 3
    && t.orders[1].status == OS.Canceled && Frozen(t.orders[1]) == 100 && t.ledger.wallets[1].held == 100
  }

  /** One idempotency key for two cancellations: the second order ends canceled with its money still frozen. */
  lemma ReusedKeyLosesARefund()
    ensures Initial(START) && LostRefund(Run(START, BUY_BOTH + CANCEL_BOTH))
  {
    BuyThen(CANCEL_BOTH);
    CancelBoth();
  }

  // ----- A reversed hold, settled for the seller -----

  const REVERSE_KEY: (L.UserId, L.Key) := (1, L.HoldReverse("a"))
  const RESOLVE_KEYS: set<(L.UserId, L.Key)> :=
    {(1, L.ResolveSeller("z")), (2, L.SellerLeg(L.ResolveSeller("z"))), (0, L.PlatformLeg(L.ResolveSeller("z")))}

  function WithA(a: Order): State {
    BOUGHT_BOTH.(orders := [a, WAITING_B])
  }

  const CONFIRMED: State := WithA(Running("a", 0, OS.TradeConfirmed, OPEN_HOLD))
  const ENTERED: State := WithA(Running("a", 0, OS.SettlementHold, ENTERED_HOLD))
  const REVERSED: State :=
    Demo(OS.Blocked, OS.Reserved,
         [DemoOrder("a", 0, OS.Dispute, ENTERED_HOLD.(released := 100), REFUNDED, None), WAITING_B],
         Wallets(0, 200, 100, 0), {RESERVE_1, RESERVE_2, REVERSE_KEY}, map[], {"k1", "k2"}, multiset{})
  const SETTLED_REVERSAL: Order :=
    DemoOrder("a", 0, OS.Completed, ENTERED_HOLD.(released := 100, captured := 100), Paid(100, 100, 95, 5, 1, 1), None)
  const RESOLVED: State :=
    Demo(OS.Sold, OS.Reserved, [SETTLED_REVERSAL, WAITING_B],
         Wallets(5, 200, 0, 95), {RESERVE_1, RESERVE_2, REVERSE_KEY} + RESOLVE_KEYS, map[], {"k1", "k2"}, multiset{})

  const REVERSE_AND_RESOLVE: seq<Action> :=
    [ConfirmDelivery(0), EnterHold(0, 0, true), ReverseHold(0), ResolveSeller(0, "z")]

  lemma EnterA()
    ensures Step(BOUGHT_BOTH, ConfirmDelivery(0)) == CONFIRMED && Step(CONFIRMED, EnterHold(0, 0, true)) == ENTERED
  {
    assert DoConfirm(BOUGHT_BOTH, 0).value.orders == CONFIRMED.orders;
    assert DoEnterHold(CONFIRMED, 0, 0, true).value.orders == ENTERED.orders;
  }

  lemma ReverseA()
    ensures Step(ENTERED, ReverseHold(0)) == REVERSED
  {
    var t := DoReverse(ENTERED, 0).value;
    assert t.lots == REVERSED.lots && t.orders == REVERSED.orders;
    assert t.ledger.wallets == REVERSED.ledger.wallets && t.ledger.keys == REVERSED.ledger.keys;
  }

  lemma ResolveA()
    ensures Step(REVERSED, ResolveSeller(0, "z")) == RESOLVED
  {
    var t := DoResolveSeller(REVERSED, 0, "z").value;
    assert t.lots == RESOLVED.lots && t.orders == RESOLVED.orders;
    assert t.ledger.wallets == RESOLVED.ledger.wallets && t.ledger.keys == RESOLVED.ledger.keys;
  }

  lemma ReverseAndResolve()
    ensures Run(BOUGHT_BOTH, REVERSE_AND_RESOLVE) == RESOLVED
  {
    var acts := REVERSE_AND_RESOLVE;
    EnterA();
    ReverseA();
    ResolveA();
    assert acts[0..] == acts;
    RunFrom(BOUGHT_BOTH, acts, 0, CONFIRMED);
    RunFrom(CONFIRMED, acts, 1, ENTERED);
    RunFrom(ENTERED, acts, 2, REVERSED);
    RunFrom(REVERSED, acts, 3, RESOLVED);
  }

  /** One order was refunded and paid out in full, and the other still waits with nothing left in the hold account. */
  predicate PaidTwice(t: State) {
    && |t.orders| == 2 && |t.ledger.wallets| == 3
    && t.orders[0].paid.refunded == 100 && t.orders[0].paid.seller + t.orders[0].paid.platform == 100
    && t.orders[1].status == OS.WaitingTrade && Frozen(t.orders[1]) == 100 && t.ledger.wallets[1].held == 0
  }

  lemma PaidTwiceWith(t: State, a: Order, b: Order)
    requires t.orders == [a, b] && t.ledger.wallets == Wallets(5, 200, 0, 95)
    requires a.paid == Paid(100, 100, 95, 5, 1, 1) && b == WAITING_B
    ensures PaidTwice(t)
  {
  }

  lemma ResolvedIsPaidTwice()
    ensures PaidTwice(RESOLVED)
  {
    PaidTwiceWith(RESOLVED, SETTLED_REVERSAL, WAITING_B);
  }

  /** A reversed hold that is then settled for the seller pays out twice, the second time from the frozen
      money of the buyer's other order, which still waits. */
  lemma SettledReversalSpendsAnotherOrder()
    ensures PaidTwice(Run(START, BUY_BOTH + REVERSE_AND_RESOLVE))
  {
    ResolvedIsPaidTwice();
    ReverseAndResolve();
    BuyThen(REVERSE_AND_RESOLVE);
  }

  // ----- One key for two purchases at once -----

  const TWO_ADMITTED: multiset<Admission> := multiset{Admission(1, 0, "k1"), Admission(1, 1, "k1")}

  const ADMITTED_TWICE: State :=
    Demo(OS.Active, OS.Active, [], Wallets(0, 300, 0, 0), {}, map[], {}, TWO_ADMITTED)
  const BOUGHT_FIRST: State :=
    Demo(OS.Reserved, OS.Active, [WAITING_A], Wallets(0, 200, 100, 0), {RESERVE_1}, map[], {"k1"},
         multiset{Admission(1, 1, "k1")})
  const BOUGHT_UNPAID: State :=
    Demo(OS.Reserved, OS.Reserved,
         [WAITING_A, DemoOrder("b", 1, OS.WaitingTrade, OPEN_HOLD, Paid(0, 0, 0, 0, 0, 0), None)],
         Wallets(0, 200, 100, 0), {RESERVE_1}, map[], {"k1"}, multiset{})

  const BUY_TWICE: seq<Action> :=
    [AdmitCreate(1, 0, "k1"), AdmitCreate(1, 1, "k1"), CreateOrder("a", 1, 0, "k1"), CreateOrder("b", 1, 1, "k1")]

  lemma BuyFirst()
    ensures Step(ADMITTED_TWICE, BUY_TWICE[2]) == BOUGHT_FIRST
  {
    var t := DoCreate(ADMITTED_TWICE, "a", 1, 0, "k1").value;
    assert t.lots == BOUGHT_FIRST.lots && t.orders == BOUGHT_FIRST.orders;
    assert t.ledger.wallets == BOUGHT_FIRST.ledger.wallets && t.admitted == BOUGHT_FIRST.admitted;
  }

  lemma BuyUnpaid()
    ensures Step(BOUGHT_FIRST, BUY_TWICE[3]) == BOUGHT_UNPAID
  {
    var t := DoCreate(BOUGHT_FIRST, "b", 1, 1, "k1").value;
    assert t.lots == BOUGHT_UNPAID.lots && t.orders == BOUGHT_UNPAID.orders;
    assert t.ledger.wallets == BOUGHT_UNPAID.ledger.wallets && t.ledger.keys == BOUGHT_UNPAID.ledger.keys;
    assert t.createKeys == {"k1"} && t.admitted == multiset{};
  }

  /** Two orders at 100 wait for their trade, and only 100 is frozen. */
  predicate Unpaid(t: State) {
    && |t.orders| == 2 && |t.ledger.wallets| == 3
    && t.orders[0].status == OS.WaitingTrade && t.orders[1].status == OS.WaitingTrade
    && t.orders[0].amount == 100 && t.orders[1].amount == 100
    && Frozen(t.orders[1]) == 0 && t.ledger.wallets[1].held == 100
  }

  /** Two purchases under one key that both look it up before either commits: the second is an order whose
      money was never frozen. */
  lemma SharedPurchaseKeyFreezesNothing()
    ensures Unpaid(Run(START, BUY_TWICE))
  {
    BuyFirst();
    BuyUnpaid();
    assert BUY_TWICE[0..] == BUY_TWICE;
    RunFrom(START, BUY_TWICE, 0, ADMITTED_A);
    RunFrom(ADMITTED_A, BUY_TWICE, 1, ADMITTED_TWICE);
    RunFrom(ADMITTED_TWICE, BUY_TWICE, 2, BOUGHT_FIRST);
    RunFrom(BOUGHT_FIRST, BUY_TWICE, 3, BOUGHT_UNPAID);
  }

  // ----- A clock that runs backwards -----

  /** One settlement a day. */
  const CONFIG: ST.Config :=
    ST.Config(true, true, true, true, 0, true, {}, 1000, 1, 1000, false, 0, 0)

  function ProofOf(id: string): ST.Proof {
    ST.Proof(3, id, "1", "5", "2", "4", "3", 3, 3, true, Some("bind"), Some("STEAM_RECEIPT"),
             ST.Canonical(0), ST.Canonical(ST.MIN_STEAM_PROTECTION_MS), None, None, None)
  }

  function EvidenceOf(id: string): ST.Evidence {
    ST.Evidence(Some(ST.Operation(ST.Confirmed, Some("1"), Some("2"), ST.Stored(ProofOf(id)), Some("bind"), false, None)),
                Some("3"), Some("4"), map[], false, 0, 0, false, 0, 0,
                ST.Receipt(false, true, true, false, "5"))
  }

  const LATE: ST.Time := ST.MIN_STEAM_PROTECTION_MS
  const CLOCK: ST.Clock := ST.Clock(LATE, LATE, LATE, LATE, LATE)

  function SettleOn(i: nat, id: string, guardDay: Day, statsDay: Day): Action {
    Settle(i, ST.ReleaseDueHold, CONFIG, EvidenceOf(id), CLOCK, guardDay, statsDay)
  }

  /** A held order at its deadline, with nothing settled on the day the guard reads, is paid. */
  lemma HeldIsPaid(s: State, i: nat, id: string, guardDay: Day)
    requires GoodOrder(s, i) && s.orders[i].id == id && s.orders[i].status == OS.SettlementHold
    requires s.orders[i].amount == 100 && s.orders[i].hold == ENTERED_HOLD && s.orders[i].paid == RESERVED
    requires s.lots[s.orders[i].lot].sellerReceive == 95 && s.lots[s.orders[i].lot].commission == 5
    requires StatsOn(s.stats, guardDay) == DayStats(0, 0)
    ensures ST.Verdicts(ST.ReleaseDueHold, CONFIG, View(s, i), Witnessed(s, i, EvidenceOf(id), guardDay), CLOCK).Pay?
  {
    var o, e := View(s, i), Witnessed(s, i, EvidenceOf(id), guardDay);
    var op := e.operation.value;
    assert ST.Accepted(ProofOf(id), ST.AnchorsOf(o, op, e));
    assert ST.HoldDecision(CONFIG, o, op, e, LATE) == ST.Allowed;
  }

  function SettledOrder(id: string, lot: nat): Order {
    DemoOrder(id, lot, OS.Completed, ENTERED_HOLD.(captured := 100, releasedAt := Some(LATE)),
              Paid(100, 0, 95, 5, 0, 1), Some(2))
  }

  function ReleaseKeys(id: string): set<(L.UserId, L.Key)> {
    {(1, L.SettlementRelease(id)), (2, L.SellerLeg(L.SettlementRelease(id))), (0, L.PlatformLeg(L.SettlementRelease(id)))}
  }

  const PAID_KEYS: set<(L.UserId, L.Key)> := {RESERVE_1, RESERVE_2} + ReleaseKeys("a")

  function PaidA(b: Order): State {
    Demo(OS.Sold, OS.Reserved, [SettledOrder("a", 0), b], Wallets(5, 100, 100, 95), PAID_KEYS, map[2 := DayStats(1, 100)],
         {"k1", "k2"}, multiset{})
  }

  const CONFIRMED_B: State := PaidA(Running("b", 1, OS.TradeConfirmed, OPEN_HOLD))
  const ENTERED_B: State := PaidA(Running("b", 1, OS.SettlementHold, ENTERED_HOLD))
  const PAID_BOTH: State :=
    Demo(OS.Sold, OS.Sold, [SettledOrder("a", 0), SettledOrder("b", 1)], Wallets(10, 100, 0, 190),
         PAID_KEYS + ReleaseKeys("b"), map[2 := DayStats(2, 200)], {"k1", "k2"}, multiset{})

  const PAY_BOTH: seq<Action> :=
    [ConfirmDelivery(0), EnterHold(0, 0, true), SettleOn(0, "a", 2, 2),
     ConfirmDelivery(1), EnterHold(1, 0, true), SettleOn(1, "b", 1, 2)]

  lemma PayOutA()
    ensures DoPayOut(ENTERED, 0, LATE, 2) == Some(PaidA(WAITING_B))
  {
    var t := DoPayOut(ENTERED, 0, LATE, 2).value;
    var u := PaidA(WAITING_B);
    assert t.lots == u.lots && t.orders == u.orders;
    assert t.ledger.wallets == u.ledger.wallets && t.ledger.keys == u.ledger.keys && t.stats == u.stats;
  }

  lemma PayA()
    ensures Step(ENTERED, SettleOn(0, "a", 2, 2)) == PaidA(WAITING_B)
  {
    HeldIsPaid(ENTERED, 0, "a", 2);
    PayOutA();
  }

  lemma EnterB()
    ensures Step(PaidA(WAITING_B), ConfirmDelivery(1)) == CONFIRMED_B
    ensures Step(CONFIRMED_B, EnterHold(1, 0, true)) == ENTERED_B
  {
    assert DoConfirm(PaidA(WAITING_B), 1).value.orders == CONFIRMED_B.orders;
    assert DoEnterHold(CONFIRMED_B, 1, 0, true).value.orders == ENTERED_B.orders;
  }

  lemma PayOutB()
    ensures DoPayOut(ENTERED_B, 1, LATE, 2) == Some(PAID_BOTH)
  {
    var t := DoPayOut(ENTERED_B, 1, LATE, 2).value;
    assert t.lots == PAID_BOTH.lots && t.orders == PAID_BOTH.orders;
    assert t.ledger.wallets == PAID_BOTH.ledger.wallets && t.ledger.keys == PAID_BOTH.ledger.keys;
    assert t.stats == PAID_BOTH.stats;
  }

  lemma PayB()
    ensures Step(ENTERED_B, SettleOn(1, "b", 1, 2)) == PAID_BOTH
  {
    HeldIsPaid(ENTERED_B, 1, "b", 1);
    PayOutB();
  }

  lemma PayBoth()
    ensures Run(BOUGHT_BOTH, PAY_BOTH) == PAID_BOTH
  {
    var acts := PAY_BOTH;
    EnterA();
    PayA();
    EnterB();
    PayB();
    assert acts[0..] == acts;
    RunFrom(BOUGHT_BOTH, acts, 0, CONFIRMED);
    RunFrom(CONFIRMED, acts, 1, ENTERED);
    RunFrom(ENTERED, acts, 2, PaidA(WAITING_B));
    RunFrom(PaidA(WAITING_B), acts, 3, CONFIRMED_B);
    RunFrom(CONFIRMED_B, acts, 4, ENTERED_B);
    RunFrom(ENTERED_B, acts, 5, PAID_BOTH);
  }

  /** One settlement a day is allowed; after the clock went back to day 1 and forth again within a call, day 2 has two. */
  lemma BackwardClockBreaksTheBudget()
    ensures forall a :: a in BUY_BOTH + PAY_BOTH ==> Limited(a, 1, 1000)
    ensures CountOn(Run(START, BUY_BOTH + PAY_BOTH).orders, 2) == 2
  {
    BuyThen(PAY_BOTH);
    PayBoth();
    assert [SettledOrder("a", 0), SettledOrder("b", 1)][..1] == [SettledOrder("a", 0)];
  }
}
