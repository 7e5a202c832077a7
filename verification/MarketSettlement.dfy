/** When held orders are paid, and how much a day may pay, over every run of the market. */
module MarketSettlement {
  import opened Common
  import OS = OrderStates
  import ST = Settlement
  import SG = SettlementGuard
  import L = Ledger
  import opened Market

  /**
   Eight days: whenever any call takes an order from settlement hold to completed, that call is a
   settlement, under whatever entry point and configuration, and it happens at least eight days after
   the verification time of a proof that names this very order, its offer, asset and both parties.
   */
  lemma HoldToCompletedTakesEightDays(start: State, acts: seq<Action>, a: Action, i: nat)
    requires Initial(start)
    requires a.Settle? ==> a.clock.guard <= a.clock.paid
    ensures var s := Run(start, acts);
            && |s.orders| <= |Step(s, a).orders|
            && (Completes(s, a, i) ==>
                  && a.Settle? && a.order == i && GoodOrder(s, i)
                  && ST.ProtectedForEightDays(View(s, i), a.evidence.operation, a.evidence, a.clock.paid)
                  && Step(s, a).orders[i].hold.releasedAt == Some(a.clock.paid))
  {
    RunKeepsLotInv(start, acts);
    var s := Run(start, acts);
    OrdersOnlyGrow(s, a);
    if Completes(s, a, i) {
      HoldEndsProtected(s, a, i);
    }
  }

  /**
   No move from settlement hold to completed happens on a reversed, conflicting, unverified, foreign or missing
   receipt, unless the configured proof window takes a proof of Steam's own receipt within both risk limits;
   none while a review, another failure or a conflict is on record; and none of an order whose money was not
   frozen in full, was touched since, or would overrun the day the guard looked at.
   */
  lemma HoldToCompletedNeedsAGoodReceipt(start: State, acts: seq<Action>, a: Action, i: nat)
    requires Initial(start) && Completes(Run(start, acts), a, i)
    ensures a.Settle? && a.order == i && a.evidence.operation.Some?
    ensures var op := a.evidence.operation.value;
            && SG.NothingToReview(op, a.evidence) && op.deliveryProof.Stored?
            && (SG.ReceiptConfirms(a.evidence.receipt, op.deliveryProof.proof.tradeId)
                || (a.config.proofWindow && op.deliveryProof.proof.version == 3
                    && op.deliveryProof.proof.authority == Some("STEAM_RECEIPT")
                    && SG.WithinRisk(a.config, Run(start, acts).orders[i].amount, a.evidence.exposure)))
    ensures var s, o := Run(start, acts), Run(start, acts).orders[i];
            && o.paid.reserved == o.hold.amount == o.amount && o.paid.settlements == 0
            && o.hold.captured == 0 && o.hold.released == 0 && o.hold.releasedAt == None
            && o.lot < |s.lots| && s.lots[o.lot].sellerReceive + s.lots[o.lot].commission == o.amount
            && StatsOn(s.stats, a.guardDay).orderCount < a.config.maxDailyOrders
            && StatsOn(s.stats, a.guardDay).volume + o.amount <= a.config.maxDailyVolume
    ensures a.config.realSettlement && a.config.liveMode
    ensures SG.MayTrade(a.config, a.evidence, a.evidence.buyerSteamId)
            && SG.MayTrade(a.config, a.evidence, a.evidence.sellerSteamId)
  {
    RunKeepsLotInv(start, acts);
    var s := Run(start, acts);
    OnlyClosingCompletes(s, a, i);
    SettlementHoldEndsBySettling(s, a, i);
    SG.PaysExactly(a.entry, a.config, View(s, i), Witnessed(s, i, a.evidence, a.guardDay), a.clock);
  }

  /** The call takes order `i` from settlement hold to completed. */
  predicate Completes(s: State, a: Action, i: nat) {
    && i < |s.orders| && s.orders[i].status == OS.SettlementHold
    && i < |Step(s, a).orders| && Step(s, a).orders[i].status == OS.Completed
  }

  lemma OrdersOnlyGrow(s: State, a: Action)
    ensures |s.orders| <= |Step(s, a).orders|
  {
  }

  lemma OnlyClosingCompletes(s: State, a: Action, i: nat)
    requires Completes(s, a, i)
    ensures Apply(s, a).Some? && (Closes(a) || a.Settle?)
  {
  }

  lemma HoldEndsProtected(s: State, a: Action, i: nat)
    requires LotInv(s) && Completes(s, a, i) && (a.Settle? ==> a.clock.guard <= a.clock.paid)
    ensures a.Settle? && a.order == i && GoodOrder(s, i)
    ensures ST.ProtectedForEightDays(View(s, i), a.evidence.operation, a.evidence, a.clock.paid)
    ensures Step(s, a).orders[i].hold.releasedAt == Some(a.clock.paid)
  {
    OnlyClosingCompletes(s, a, i);
    SettlementHoldEndsBySettling(s, a, i);
    ST.EveryPayoutIsProtected(a.entry, a.config, View(s, i), Witnessed(s, i, a.evidence, a.guardDay), a.clock);
  }

  lemma SettlementHoldEndsBySettling(s: State, a: Action, i: nat)
    requires LotInv(s) && i < |s.orders| && Apply(s, a).Some? && (Closes(a) || a.Settle?)
    requires s.orders[i].status == OS.SettlementHold && Step(s, a).orders[i].status == OS.Completed
    ensures a.Settle? && a.order == i && GoodOrder(s, i)
    ensures ST.Verdicts(a.entry, a.config, View(s, i), Witnessed(s, i, a.evidence, a.guardDay), a.clock).Pay?
    ensures Step(s, a).orders[i].hold.releasedAt == Some(a.clock.paid)
  {
    assert OrderOk(s, i) && OrderOk(s, a.order);
  }

  // ----- The daily budget -----

  function CountOn(orders: seq<Order>, day: Day): nat {
    if orders == [] then 0
    else
      CountOn(orders[..|orders| - 1], day)
      + (if orders[|orders| - 1].settledOn == Some(day) then 1 else 0)
  }

  function VolumeOn(orders: seq<Order>, day: Day): int {
    if orders == [] then 0
    else
      VolumeOn(orders[..|orders| - 1], day)
      + (if orders[|orders| - 1].settledOn == Some(day) then orders[|orders| - 1].amount else 0)
  }

  lemma {:induction false} DayUpdate(orders: seq<Order>, i: nat, o: Order, day: Day)
    requires i < |orders| && o.amount == orders[i].amount && orders[i].settledOn.None?
    ensures CountOn(orders[i := o], day) == CountOn(orders, day) + (if o.settledOn == Some(day) then 1 else 0)
    ensures VolumeOn(orders[i := o], day) == VolumeOn(orders, day) + (if o.settledOn == Some(day) then o.amount else 0)
  {
    var n := |orders| - 1;
    if i == n {
      assert orders[i := o][..n] == orders[..n];
    } else {
      assert orders[i := o][..n] == orders[..n][i := o];
      DayUpdate(orders[..n], i, o, day);
    }
  }

  /** The counters of a day are the number and volume of the orders settled on it. */
  ghost predicate StatsInv(s: State) {
    && (forall d :: StatsOn(s.stats, d) == DayStats(CountOn(s.orders, d), VolumeOn(s.orders, d)))
    && (forall i :: 0 <= i < |s.orders| && s.orders[i].settledOn.Some? ==>
          s.orders[i].status == OS.Completed && s.orders[i].amount > 0)
  }

  lemma {:induction false} SameDays(xs: seq<Order>, ys: seq<Order>, day: Day)
    requires |xs| == |ys|
    requires forall k :: 0 <= k < |xs| ==> xs[k].settledOn == ys[k].settledOn && xs[k].amount == ys[k].amount
    ensures CountOn(xs, day) == CountOn(ys, day) && VolumeOn(xs, day) == VolumeOn(ys, day)
  {
    if xs != [] {
      SameDays(xs[..|xs| - 1], ys[..|ys| - 1], day);
    }
  }

  predicate PaysOut(s: State, a: Action) {
    && a.Settle? && GoodOrder(s, a.order)
    && ST.Verdicts(a.entry, a.config, View(s, a.order), Witnessed(s, a.order, a.evidence, a.guardDay), a.clock).Pay?
    && Apply(s, a).Some?
  }

  /** Statistics, days and amounts are as before, up to a new unsettled order. */
  predicate SameDaysAfter(s: State, t: State) {
    && t.stats == s.stats && |s.orders| <= |t.orders| <= |s.orders| + 1
    && (forall k :: 0 <= k < |s.orders| ==>
          t.orders[k].settledOn == s.orders[k].settledOn && t.orders[k].amount == s.orders[k].amount
          && (s.orders[k].status == OS.Completed ==> t.orders[k].status == OS.Completed))
    && (|t.orders| > |s.orders| ==> t.orders[|s.orders|].settledOn.None?)
  }

  lemma RefundingKeepsDays(s: State, a: Action)
    requires LotInv(s) && (a.CancelOrder? || a.FailSafe? || a.ResolveBuyer?)
    ensures SameDaysAfter(s, Step(s, a))
  {
    if Apply(s, a).Some? {
      assert OrderOk(s, a.order);
    }
  }

  lemma EndingKeepsDays(s: State, a: Action)
    requires LotInv(s) && (a.ReverseHold? || a.ResolveSeller?)
    ensures SameDaysAfter(s, Step(s, a))
  {
    if Apply(s, a).Some? {
      assert OrderOk(s, a.order);
    }
  }

  lemma DisputingKeepsDays(s: State, a: Action)
    requires LotInv(s) && (a.OpenDispute? || a.OpenSystemDispute?)
    ensures SameDaysAfter(s, Step(s, a))
  {
    if Apply(s, a).Some? {
      assert OrderOk(s, a.order);
    }
  }

  lemma ClosingKeepsDays(s: State, a: Action)
    requires LotInv(s) && Closes(a)
    ensures SameDaysAfter(s, Step(s, a))
  {
    if a.CancelOrder? || a.FailSafe? || a.ResolveBuyer? {
      RefundingKeepsDays(s, a);
    } else if a.ReverseHold? || a.ResolveSeller? {
      EndingKeepsDays(s, a);
    } else {
      DisputingKeepsDays(s, a);
    }
  }

  lemma AdvancingKeepsDays(s: State, a: Action)
    requires LotInv(s) && !PaysOut(s, a) && (a.Settle? || a.ConfirmDelivery? || a.EnterHold?)
    ensures SameDaysAfter(s, Step(s, a))
  {
    if Apply(s, a).Some? {
      assert OrderOk(s, a.order);
    }
  }

  lemma CreatingKeepsDays(s: State, a: Action)
    requires a.CreateOrder?
    ensures SameDaysAfter(s, Step(s, a))
  {
  }

  lemma ListingKeepsOrders(s: State, a: Action)
    requires !Closes(a) && !a.Settle? && !a.ConfirmDelivery? && !a.EnterHold? && !a.CreateOrder?
    ensures Step(s, a).orders == s.orders && Step(s, a).stats == s.stats
  {
  }

  lemma QuietKeepsDays(s: State, a: Action)
    requires !Closes(a) && !a.Settle? && !a.ConfirmDelivery? && !a.EnterHold?
    ensures SameDaysAfter(s, Step(s, a))
  {
    if a.CreateOrder? {
      CreatingKeepsDays(s, a);
    } else {
      ListingKeepsOrders(s, a);
    }
  }

  /** Calls that are not a payout leave every order's day and amount alone. */
  lemma OtherStepsKeepDays(s: State, a: Action)
    requires LotInv(s) && !PaysOut(s, a)
    ensures SameDaysAfter(s, Step(s, a))
  {
    if Closes(a) {
      ClosingKeepsDays(s, a);
    } else if a.Settle? || a.ConfirmDelivery? || a.EnterHold? {
      AdvancingKeepsDays(s, a);
    } else {
      QuietKeepsDays(s, a);
    }
  }

  lemma PayoutDays(s: State, a: Action)
    requires LotInv(s) && PaysOut(s, a)
    ensures var o := s.orders[a.order];
            var t := Step(s, a);
            && o.status == OS.SettlementHold
            && t.orders == s.orders[a.order := t.orders[a.order]]
            && t.orders[a.order].amount == o.amount && t.orders[a.order].settledOn == Some(a.statsDay)
            && t.orders[a.order].status == OS.Completed
            && t.stats == Incremented(s.stats, a.statsDay, o.amount)
            && StatsOn(s.stats, a.guardDay).orderCount < a.config.maxDailyOrders
            && StatsOn(s.stats, a.guardDay).volume + o.amount <= a.config.maxDailyVolume
  {
    var e := Witnessed(s, a.order, a.evidence, a.guardDay);
    assert View(s, a.order).status == OS.SettlementHold;
    assert ST.CanSettle(a.config, View(s, a.order), e, a.clock.guard).Allowed?;
    ST.GuardNeedsEightDays(a.config, View(s, a.order), e, a.clock.guard);
  }

  lemma SameDaysKeepStats(s: State, t: State)
    requires StatsInv(s) && SameDaysAfter(s, t)
    ensures StatsInv(t)
  {
    forall d ensures StatsOn(t.stats, d) == DayStats(CountOn(t.orders, d), VolumeOn(t.orders, d)) {
      SameDays(s.orders, t.orders[..|s.orders|], d);
      if |t.orders| > |s.orders| {
        assert t.orders[..|t.orders| - 1] == t.orders[..|s.orders|];
      } else {
        assert t.orders[..|s.orders|] == t.orders;
      }
    }
  }

  lemma StepKeepsStats(s: State, a: Action)
    requires LotInv(s) && StatsInv(s)
    ensures StatsInv(Step(s, a))
  {
    if PaysOut(s, a) {
      var t := Step(s, a);
      PayoutDays(s, a);
      forall d ensures StatsOn(t.stats, d) == DayStats(CountOn(t.orders, d), VolumeOn(t.orders, d)) {
        DayUpdate(s.orders, a.order, t.orders[a.order], d);
      }
    } else {
      OtherStepsKeepDays(s, a);
      SameDaysKeepStats(s, Step(s, a));
    }
  }

  /** The limits in force for one run. */
  predicate Limited(a: Action, maxOrders: nat, maxVolume: nat) {
    a.Settle? ==> a.config.maxDailyOrders == maxOrders && a.config.maxDailyVolume == maxVolume
  }

  ghost predicate WithinBudget(s: State, maxOrders: nat, maxVolume: nat) {
    forall d :: CountOn(s.orders, d) <= maxOrders && VolumeOn(s.orders, d) <= maxVolume
  }

  lemma {:induction false} VolumeIsNatural(orders: seq<Order>, day: Day)
    requires forall i :: 0 <= i < |orders| && orders[i].settledOn.Some? ==> orders[i].amount > 0
    ensures VolumeOn(orders, day) >= 0 && (CountOn(orders, day) == 0 ==> VolumeOn(orders, day) == 0)
  {
    if orders != [] {
      VolumeIsNatural(orders[..|orders| - 1], day);
    }
  }

  /** The day a payout is counted on is the day its guard read, or one that has no settled order yet. */
  predicate CountedInRoom(s: State, a: Action)
    requires a.Settle?
  {
    a.guardDay == a.statsDay || CountOn(s.orders, a.statsDay) == 0
  }

  lemma PayoutKeepsBudget(s: State, a: Action, maxOrders: nat, maxVolume: nat)
    requires LotInv(s) && StatsInv(s) && WithinBudget(s, maxOrders, maxVolume) && Limited(a, maxOrders, maxVolume)
    requires PaysOut(s, a) && CountedInRoom(s, a)
    ensures WithinBudget(Step(s, a), maxOrders, maxVolume)
  {
    var t := Step(s, a);
    PayoutDays(s, a);
    VolumeIsNatural(s.orders, a.guardDay);
    VolumeIsNatural(s.orders, a.statsDay);
    forall d ensures CountOn(t.orders, d) <= maxOrders && VolumeOn(t.orders, d) <= maxVolume {
      DayUpdate(s.orders, a.order, t.orders[a.order], d);
    }
  }

  lemma StepKeepsBudget(s: State, a: Action, maxOrders: nat, maxVolume: nat)
    requires LotInv(s) && StatsInv(s) && WithinBudget(s, maxOrders, maxVolume) && Limited(a, maxOrders, maxVolume)
    requires PaysOut(s, a) ==> CountedInRoom(s, a)
    ensures WithinBudget(Step(s, a), maxOrders, maxVolume)
  {
    if PaysOut(s, a) {
      PayoutKeepsBudget(s, a, maxOrders, maxVolume);
    } else {
      var t := Step(s, a);
      StepKeepsStats(s, a);
      OtherStepsKeepDays(s, a);
      forall d ensures CountOn(t.orders, d) <= maxOrders && VolumeOn(t.orders, d) <= maxVolume {
        assert StatsOn(t.stats, d) == StatsOn(s.stats, d);
      }
    }
  }

  // ----- Clocks that never run backwards -----

  /**
   The day reads of the settlement calls of a run, in the order of the daily-budget lock they hold, never
   fall: neither from the guard's read to the payout's, nor from one call to the next.
   */
  ghost predicate DaysNeverFall(acts: seq<Action>, from: Day)
    decreases |acts|
  {
    acts == []
    || (if acts[0].Settle?
        then from <= acts[0].guardDay <= acts[0].statsDay && DaysNeverFall(acts[1..], acts[0].statsDay)
        else DaysNeverFall(acts[1..], from))
  }

  ghost predicate SettledUpTo(s: State, day: Day) {
    forall i :: 0 <= i < |s.orders| && s.orders[i].settledOn.Some? ==> s.orders[i].settledOn.value <= day
  }

  lemma {:induction false} NothingSettledLater(orders: seq<Order>, day: Day)
    requires forall i :: 0 <= i < |orders| && orders[i].settledOn.Some? ==> orders[i].settledOn.value < day
    ensures CountOn(orders, day) == 0
  {
    if orders != [] {
      NothingSettledLater(orders[..|orders| - 1], day);
    }
  }

  lemma PayoutKeepsDays(s: State, a: Action, from: Day)
    requires LotInv(s) && StatsInv(s) && SettledUpTo(s, from) && PaysOut(s, a)
    requires from <= a.guardDay <= a.statsDay
    ensures SettledUpTo(Step(s, a), a.statsDay) && CountedInRoom(s, a)
  {
    PayoutDays(s, a);
    if a.guardDay < a.statsDay {
      NothingSettledLater(s.orders, a.statsDay);
    }
  }

  lemma SameDaysStayUpTo(s: State, t: State, from: Day, to: Day)
    requires SettledUpTo(s, from) && SameDaysAfter(s, t) && from <= to
    ensures SettledUpTo(t, to)
  {
  }

  lemma SettleKeepsDays(s: State, a: Action, from: Day)
    requires LotInv(s) && StatsInv(s) && SettledUpTo(s, from)
    requires a.Settle? ==> from <= a.guardDay <= a.statsDay
    ensures SettledUpTo(Step(s, a), if a.Settle? then a.statsDay else from)
    ensures PaysOut(s, a) ==> CountedInRoom(s, a)
  {
    if PaysOut(s, a) {
      PayoutKeepsDays(s, a, from);
    } else {
      OtherStepsKeepDays(s, a);
      SameDaysStayUpTo(s, Step(s, a), from, if a.Settle? then a.statsDay else from);
    }
  }

  lemma {:induction false} RunKeepsBudget(s: State, acts: seq<Action>, from: Day, maxOrders: nat, maxVolume: nat)
    requires LotInv(s) && StatsInv(s) && WithinBudget(s, maxOrders, maxVolume) && SettledUpTo(s, from)
    requires DaysNeverFall(acts, from) && forall a :: a in acts ==> Limited(a, maxOrders, maxVolume)
    ensures WithinBudget(Run(s, acts), maxOrders, maxVolume) && StatsInv(Run(s, acts))
    decreases |acts|
  {
    if acts != [] {
      var a := acts[0];
      SettleKeepsDays(s, a, from);
      StepKeepsLotInv(s, a);
      StepKeepsStats(s, a);
      StepKeepsBudget(s, a, maxOrders, maxVolume);
      RunKeepsBudget(Step(s, a), acts[1..], if a.Settle? then a.statsDay else from, maxOrders, maxVolume);
    }
  }

  /**
   In every run whose day reads never fall, also across midnight within one call, the orders settled on any
   one day stay within the day's count and volume limits.
   */
  lemma DailyBudgetHolds(start: State, acts: seq<Action>, from: Day, maxOrders: nat, maxVolume: nat, day: Day)
    requires Initial(start) && DaysNeverFall(acts, from)
    requires forall a :: a in acts ==> Limited(a, maxOrders, maxVolume)
    ensures CountOn(Run(start, acts).orders, day) <= maxOrders
    ensures VolumeOn(Run(start, acts).orders, day) <= maxVolume
    ensures StatsOn(Run(start, acts).stats, day)
            == DayStats(CountOn(Run(start, acts).orders, day), VolumeOn(Run(start, acts).orders, day))
  {
    RunKeepsBudget(start, acts, from, maxOrders, maxVolume);
  }

  // ----- Any clock, read once per call -----

  lemma {:induction false} OneReadRunKeepsBudget(s: State, acts: seq<Action>, maxOrders: nat, maxVolume: nat)
    requires LotInv(s) && StatsInv(s) && WithinBudget(s, maxOrders, maxVolume)
    requires forall a :: a in acts ==> Limited(a, maxOrders, maxVolume) && (a.Settle? ==> a.guardDay == a.statsDay)
    ensures WithinBudget(Run(s, acts), maxOrders, maxVolume)
    decreases |acts|
  {
    if acts != [] {
      StepKeepsLotInv(s, acts[0]);
      StepKeepsStats(s, acts[0]);
      StepKeepsBudget(s, acts[0], maxOrders, maxVolume);
      OneReadRunKeepsBudget(Step(s, acts[0]), acts[1..], maxOrders, maxVolume);
    }
  }

  /** With one day read per call the clock may even run backwards between calls. */
  lemma OneReadKeepsTheBudget(start: State, acts: seq<Action>, maxOrders: nat, maxVolume: nat, day: Day)
    requires Initial(start)
    requires forall a :: a in acts ==> Limited(a, maxOrders, maxVolume) && (a.Settle? ==> a.guardDay == a.statsDay)
    ensures CountOn(Run(start, acts).orders, day) <= maxOrders
    ensures VolumeOn(Run(start, acts).orders, day) <= maxVolume
  {
    OneReadRunKeepsBudget(start, acts, maxOrders, maxVolume);
  }

  /**
   Whatever the clocks: a payout stays within the budget exactly when the day it is counted on still had
   room, whichever day its guard looked at.
   */
  lemma StraddlingPayoutNeedsRoom(s: State, a: Action, maxOrders: nat, maxVolume: nat)
    requires LotInv(s) && StatsInv(s) && WithinBudget(s, maxOrders, maxVolume)
    requires PaysOut(s, a)
    ensures WithinBudget(Step(s, a), maxOrders, maxVolume)
            <==> CountOn(s.orders, a.statsDay) < maxOrders
                 && VolumeOn(s.orders, a.statsDay) + s.orders[a.order].amount <= maxVolume
  {
    PayoutDays(s, a);
    var t := Step(s, a);
    forall d
      ensures CountOn(t.orders, d) == CountOn(s.orders, d) + (if d == a.statsDay then 1 else 0)
      ensures VolumeOn(t.orders, d)
              == VolumeOn(s.orders, d) + (if d == a.statsDay then s.orders[a.order].amount else 0)
    {
      DayUpdate(s.orders, a.order, t.orders[a.order], d);
    }
  }
}
