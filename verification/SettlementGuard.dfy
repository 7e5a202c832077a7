/**
 What the settlement guard allows, on the fields of configuration, order and evidence: the exact condition,
 the truth of every refusal, and the exact verdict of the three entry points.
 */
module SettlementGuard {
  import opened Common
  import OS = OrderStates
  import opened Settlement

  /** The decimal text of a positive number of at most twenty digits. */
  predicate DecimalId(id: string) {
    && id != "" && |id| <= 20 && id[0] != '0'
    && forall ch :: ch in id ==> '0' <= ch <= '9'
  }

  predicate Verified(operation: Option<Operation>) {
    operation.Some? && operation.value.status in {DeliveryVerified, Confirmed}
  }

  /** The party is known and may trade: the rollout is open, or the environment or an enabled row lists the party. */
  predicate MayTrade(c: Config, e: Evidence, id: Option<string>) {
    && id.Some? && id.value != ""
    && (c.openRollout || id.value in c.envAllowlist || (id.value in e.allowlist && e.allowlist[id.value].enabled))
  }

  /** The amount is within the party's own limit: the one of its row, if it is its row that lets it trade. */
  predicate WithinOwnLimit(c: Config, e: Evidence, id: string, amount: int) {
    c.openRollout || id in c.envAllowlist || id !in e.allowlist
    || e.allowlist[id].maxOrder.None? || amount <= e.allowlist[id].maxOrder.value
  }

  /** The stored proof is one of this very order, its offer, asset and parties. */
  predicate ProofFits(p: Proof, o: OrderView, op: Operation, e: Evidence) {
    && p.orderId == o.id && op.externalOfferId == Some(p.offerId) && op.expectedAssetId == Some(p.originalAssetId)
    && e.sellerSteamId == Some(p.sellerSteamId) && e.buyerSteamId == Some(p.buyerSteamId)
    && p.sellerSteamId != p.buyerSteamId
    && DecimalId(p.tradeId) && DecimalId(p.offerId) && DecimalId(p.originalAssetId)
    && DecimalId(p.sellerSteamId) && DecimalId(p.buyerSteamId)
    && p.receiptStatus == 3 && p.offerState == 3
  }

  /** The proof says by whose word the item arrived: Steam's receipt for this trade binding, or a mapped asset. */
  predicate ProofIsFounded(p: Proof, op: Operation) {
    if p.version == 3
    then p.authority == Some("STEAM_RECEIPT") && p.bindingVerified
         && p.tradeBinding == op.tradeBinding && op.tradeBinding.Some? && op.tradeBinding.value != ""
    else p.version == 2
         && (p.bindingVerified || op.tradeBinding.None? || op.tradeBinding.value == "")
         && p.destinationAssetId.Some? && DecimalId(p.destinationAssetId.value)
         && p.destinationContextId.Some? && p.destinationContextId.value in ["2", "16"]
         && p.mappingMethod.Some? && p.mappingMethod.value in ["STEAM_RECEIPT", "INVENTORY_DELTA"]
  }

  /** The protection is dated exactly, and covers eight days and the configured time. */
  predicate ProtectionIsDated(p: Proof, c: Config) {
    && p.verifiedAt.Canonical? && p.protectionUntil.Canonical?
    && p.protectionUntil.ms >= p.verifiedAt.ms + 691_200_000 && p.protectionUntil.ms >= p.verifiedAt.ms + c.holdMs
  }

  predicate WithinRisk(c: Config, amount: int, exposure: int) {
    0 < c.autoMaxOrder && 0 < c.autoMaxExposure && amount <= c.autoMaxOrder && exposure <= c.autoMaxExposure
  }

  /** Steam's fresh answer: the trade of the proof is accepted and verified, with no conflict and no reversal. */
  predicate ReceiptConfirms(r: ReceiptRead, tradeId: string) {
    r == Receipt(false, true, true, false, tradeId)
  }

  /** The order's own proof that the item was handed over. */
  predicate Proves(o: OrderView, op: Operation, e: Evidence, c: Config) {
    && op.deliveryProof.Stored?
    && var p := op.deliveryProof.proof;
       ProofFits(p, o, op, e) && ProofIsFounded(p, op) && ProtectionIsDated(p, c)
  }

  predicate NothingToReview(op: Operation, e: Evidence) {
    && !op.manualReview && !e.recordedConflict
    && (op.failReasonCode.Some? ==> op.failReasonCode.value in ["", "STEAM_RECHECK_UNAVAILABLE"])
  }

  predicate AmountsAgree(o: OrderView, e: Evidence) {
    && o.hold.amount == o.amount && o.holdAmount == o.amount && e.reserveSum == -o.amount
    && o.sellerReceive >= 0 && o.commission >= 0 && o.sellerReceive + o.commission == o.amount
    && o.hold.captured == 0 && o.hold.released == 0 && o.hold.releasedAt == None
  }

  /** What the guard asks of every order. */
  predicate MaySettle(c: Config, o: OrderView, e: Evidence) {
    && c.realSettlement && c.liveMode && Verified(e.operation)
    && MayTrade(c, e, e.buyerSteamId) && MayTrade(c, e, e.sellerSteamId)
    && 0 < o.amount <= c.maxOrder
    && WithinOwnLimit(c, e, e.buyerSteamId.value, o.amount) && WithinOwnLimit(c, e, e.sellerSteamId.value, o.amount)
    && !e.alreadySettled && e.orderCount < c.maxDailyOrders && e.volume + o.amount <= c.maxDailyVolume
  }

  /** What it asks of an order in settlement hold besides. */
  predicate MayRelease(c: Config, o: OrderView, e: Evidence, now: Time)
    requires e.operation.Some?
  {
    var op := e.operation.value;
    && NothingToReview(op, e) && AmountsAgree(o, e) && Proves(o, op, e, c)
    && var p := op.deliveryProof.proof;
       && p.protectionUntil.ms <= now
       && (if c.proofWindow && p.version == 3 then WithinRisk(c, o.amount, e.exposure)
           else ReceiptConfirms(e.receipt, p.tradeId))
  }

  lemma NumericIdIsDecimal(id: string)
    ensures SteamNumericId(id) <==> DecimalId(id)
  {
    if DecimalId(id) {
      assert forall i :: 0 <= i < |id| ==> id[i] in id;
    }
  }

  lemma LimitsExactly(c: Config, o: OrderView, e: Evidence, buyer: string, seller: string)
    requires AllowedLimit(c, buyer, e.allowlist).Some? && AllowedLimit(c, seller, e.allowlist).Some?
    ensures o.amount <= EffectiveMaxOrder(c.maxOrder, AllowedLimit(c, buyer, e.allowlist).value,
                                          AllowedLimit(c, seller, e.allowlist).value)
            <==> && o.amount <= c.maxOrder && WithinOwnLimit(c, e, buyer, o.amount)
                 && WithinOwnLimit(c, e, seller, o.amount)
  {
  }

  /** A deadline comes from a proof of the order, and is the end of its protection. */
  lemma DeadlineExactly(o: OrderView, op: Operation, e: Evidence, c: Config)
    requires e.buyerSteamId.Some? && e.sellerSteamId.Some?
    ensures var a := AnchorsOf(o, op, e);
            && (ProofDeadline(op.deliveryProof, a, c.holdMs).Some? <==> Proves(o, op, e, c))
            && (Proves(o, op, e, c) ==>
                  && ProofDeadline(op.deliveryProof, a, c.holdMs) == Some(op.deliveryProof.proof.protectionUntil.ms)
                  && SupportsProofWindow(op.deliveryProof, a, c.holdMs) == (op.deliveryProof.proof.version == 3))
  {
    if op.deliveryProof.Stored? {
      var p := op.deliveryProof.proof;
      NumericIdIsDecimal(p.tradeId);
      NumericIdIsDecimal(p.offerId);
      NumericIdIsDecimal(p.originalAssetId);
      NumericIdIsDecimal(p.sellerSteamId);
      NumericIdIsDecimal(p.buyerSteamId);
      if p.destinationAssetId.Some? {
        NumericIdIsDecimal(p.destinationAssetId.value);
      }
    }
  }

  /** The guard allows a held order exactly when everything it asks for holds. */
  lemma HeldOrderIsAllowedExactly(c: Config, o: OrderView, e: Evidence, now: Time)
    requires o.status == OS.SettlementHold
    ensures CanSettle(c, o, e, now) == Allowed <==> MaySettle(c, o, e) && MayRelease(c, o, e, now)
  {
    if Verified(e.operation) && MayTrade(c, e, e.buyerSteamId) && MayTrade(c, e, e.sellerSteamId) {
      LimitsExactly(c, o, e, e.buyerSteamId.value, e.sellerSteamId.value);
      DeadlineExactly(o, e.operation.value, e, c);
    }
  }

  /** Any other order is allowed exactly if it is TRADE_CONFIRMED and may be settled. */
  lemma OtherOrderIsAllowedExactly(c: Config, o: OrderView, e: Evidence, now: Time)
    requires o.status != OS.SettlementHold
    ensures CanSettle(c, o, e, now) == Allowed <==> o.status == OS.TradeConfirmed && MaySettle(c, o, e)
  {
    if MayTrade(c, e, e.buyerSteamId) && MayTrade(c, e, e.sellerSteamId) {
      LimitsExactly(c, o, e, e.buyerSteamId.value, e.sellerSteamId.value);
    }
  }

  // ----- Refusals -----

  /** A refusal before the hold checks tells the truth: its code names what is missing. */
  lemma RefusalIsTrue(c: Config, o: OrderView, e: Evidence, now: Time)
    requires CanSettle(c, o, e, now).Blocked?
    ensures match CanSettle(c, o, e, now).code
            case RealSettlementDisabled => !c.realSettlement
            case NotLiveMode => !c.liveMode
            case TradeNotConfirmed => !Verified(e.operation)
            case OrderNotTradeConfirmed => o.status !in {OS.TradeConfirmed, OS.SettlementHold}
            case MissingBuyerSteamId => e.buyerSteamId == None || e.buyerSteamId == Some("")
            case MissingSellerSteamId => e.sellerSteamId == None || e.sellerSteamId == Some("")
            case BuyerNotAllowlisted => !MayTrade(c, e, e.buyerSteamId)
            case SellerNotAllowlisted => !MayTrade(c, e, e.sellerSteamId)
            case OrderAmountExceedsLimit =>
              || o.amount <= 0 || c.maxOrder < o.amount
              || (e.buyerSteamId.Some? && !WithinOwnLimit(c, e, e.buyerSteamId.value, o.amount))
              || (e.sellerSteamId.Some? && !WithinOwnLimit(c, e, e.sellerSteamId.value, o.amount))
            case DailyOrderLimit => c.maxDailyOrders <= e.orderCount
            case DailyVolumeLimit => c.maxDailyVolume < e.volume + o.amount
            case SettlementFinancialInconsistency => e.alreadySettled || !AmountsAgree(o, e)
            case _ => o.status == OS.SettlementHold && MaySettle(c, o, e)
  {
    if Verified(e.operation) && MayTrade(c, e, e.buyerSteamId) && MayTrade(c, e, e.sellerSteamId) {
      LimitsExactly(c, o, e, e.buyerSteamId.value, e.sellerSteamId.value);
    }
  }

  /** The hold checks in their order: review, amounts, proof, protection, then risk or receipt. */
  lemma HoldIsRefusedInOrder(c: Config, o: OrderView, e: Evidence, now: Time)
    requires o.status == OS.SettlementHold && MaySettle(c, o, e)
    ensures var op := e.operation.value;
            CanSettle(c, o, e, now)
            == if !NothingToReview(op, e) then Blocked(SettlementReviewRequired)
               else if !AmountsAgree(o, e) then Blocked(SettlementFinancialInconsistency)
               else if !Proves(o, op, e, c) then Blocked(SteamRecheckUnavailable)
               else if now < op.deliveryProof.proof.protectionUntil.ms then Blocked(SettlementProtectionActive)
               else if c.proofWindow && op.deliveryProof.proof.version == 3
               then if WithinRisk(c, o.amount, e.exposure) then Allowed else Blocked(AutoSettlementRiskLimit)
               else if e.receipt.Receipt? && e.receipt.reversal then Blocked(SteamReversalDetected)
               else if ReceiptConfirms(e.receipt, op.deliveryProof.proof.tradeId) then Allowed
               else Blocked(SteamRecheckUnavailable)
  {
    LimitsExactly(c, o, e, e.buyerSteamId.value, e.sellerSteamId.value);
    DeadlineExactly(o, e.operation.value, e, c);
  }

  // ----- The entry points -----

  /** A hold is due from the end of its proof's protection, without a proof from the time it was entered until, and never
      once released, nor on a stored value that is no proof or has no date. */
  lemma HoldIsDueExactly(o: OrderView, operation: Option<Operation>, now: Time)
    ensures IsHoldReleaseDue(o, operation, now)
            <==> && o.hold.releasedAt == None
                 && if operation.None? || operation.value.deliveryProof == NoProof
                    then o.hold.holdUntil.Some? && o.hold.holdUntil.value <= now
                    else && operation.value.deliveryProof.Stored?
                         && operation.value.deliveryProof.proof.protectionUntil != Unparsable
                         && operation.value.deliveryProof.proof.protectionUntil.ms <= now
  {
  }

  /**
   An order is paid, through whatever entry point, exactly if it is in settlement hold, may be settled and
   released, and its protection is over at the due check and at the release.
   */
  lemma PaysExactly(entry: EntryPoint, c: Config, o: OrderView, e: Evidence, t: Clock)
    ensures Verdicts(entry, c, o, e, t) == Pay
            <==> && o.status == OS.SettlementHold && MaySettle(c, o, e) && MayRelease(c, o, e, t.guard)
                 && e.operation.value.deliveryProof.proof.protectionUntil.ms <= t.due
                 && e.operation.value.deliveryProof.proof.protectionUntil.ms <= t.releaseDue
  {
    if o.status == OS.SettlementHold {
      HeldOrderIsAllowedExactly(c, o, e, t.guard);
    }
  }

  /** The end of a hold entered at `entered`: the proof's protection, or else eight days or more from then. */
  function HoldEnd(c: Config, operation: Option<Operation>, entered: Time): Time {
    if operation.Some? && operation.value.deliveryProof.Stored?
       && operation.value.deliveryProof.proof.protectionUntil != Unparsable
    then operation.value.deliveryProof.proof.protectionUntil.ms
    else entered + if c.holdMs < 691_200_000 then 691_200_000 else c.holdMs
  }

  /** An order enters the hold exactly if it is TRADE_CONFIRMED and delivered, a proof is stored or the hold window is
      on, and the guard lets it, where the entry point asks the guard; the release worker never starts a hold. */
  lemma EntersExactly(entry: EntryPoint, c: Config, o: OrderView, e: Evidence, t: Clock)
    ensures Verdicts(entry, c, o, e, t).Enter?
            <==> && o.status == OS.TradeConfirmed && Verified(e.operation) && entry != ReleaseDueHold
                 && (e.operation.value.deliveryProof != NoProof
                     || (c.realSettlement && c.holdWindow && c.extensionFirst))
                 && (entry == TrySettleConfirmed ==> MaySettle(c, o, e))
    ensures Verdicts(entry, c, o, e, t).Enter? ==>
              Verdicts(entry, c, o, e, t).until == HoldEnd(c, e.operation, t.entered)
  {
    if o.status != OS.SettlementHold {
      OtherOrderIsAllowedExactly(c, o, e, t.guard);
    }
  }
}
