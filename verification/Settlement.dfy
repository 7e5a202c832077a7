/**
 Delivery proofs, the settlement guard, and the three ways an order in settlement hold may be paid
 out (durable-delivery-proof.ts, settlement-proof-policy.ts, settlement-hold.config.ts,
 settlement-guard.service.ts, settlement.service.ts).
 */
module Settlement {
  import opened Common
  import OS = OrderStates

  type Time = int

  const MIN_STEAM_PROTECTION_MS: int := 8 * 24 * 60 * 60 * 1000

  // ----- Delivery proofs -----

  /**
   A stored date text: the exact UTC form with milliseconds, another text that Date.parse
   understands, or a text it does not.
   */
  datatype Timestamp = Canonical(ms: Time) | Loose(ms: Time) | Unparsable

  datatype Proof = Proof(
    version: int,
    orderId: string,
    offerId: string,
    tradeId: string,
    originalAssetId: string,
    sellerSteamId: string,
    buyerSteamId: string,
    receiptStatus: int,
    offerState: int,
    bindingVerified: bool,
    tradeBinding: Option<string>,
    authority: Option<string>,
    verifiedAt: Timestamp,
    protectionUntil: Timestamp,
    destinationAssetId: Option<string>,
    destinationContextId: Option<string>,
    mappingMethod: Option<string>)

  /** The deliveryProof column: empty, a JSON value that is not an object, or an object. */
  datatype StoredProof = NoProof | NotAnObject | Stored(proof: Proof)

  datatype Anchors = Anchors(
    orderId: string,
    offerId: string,
    originalAssetId: string,
    sellerSteamId: string,
    buyerSteamId: string,
    tradeBinding: Option<string>)

  predicate SteamNumericId(id: string) {
    && 1 <= |id| <= 20
    && '1' <= id[0] <= '9'
    && forall i :: 1 <= i < |id| ==> '0' <= id[i] <= '9'
  }

  predicate Truthy(text: Option<string>) {
    text.Some? && text.value != ""
  }

  /** boundDeliveryProof accepts the proof for these anchors. */
  predicate Accepted(p: Proof, a: Anchors) {
    && (p.version == 2 || p.version == 3)
    && p.orderId == a.orderId && p.offerId == a.offerId && p.originalAssetId == a.originalAssetId
    && p.sellerSteamId == a.sellerSteamId && p.buyerSteamId == a.buyerSteamId
    && SteamNumericId(p.tradeId) && SteamNumericId(p.offerId) && SteamNumericId(p.originalAssetId)
    && SteamNumericId(p.sellerSteamId) && SteamNumericId(p.buyerSteamId)
    && p.sellerSteamId != p.buyerSteamId
    && p.receiptStatus == 3 && p.offerState == 3
    && (Truthy(a.tradeBinding) ==> p.bindingVerified)
    && (p.version == 3 ==> p.tradeBinding == a.tradeBinding)
    && !p.verifiedAt.Unparsable? && !p.protectionUntil.Unparsable?
    && p.protectionUntil.ms - p.verifiedAt.ms >= MIN_STEAM_PROTECTION_MS
    && (p.version == 3 ==> p.authority == Some("STEAM_RECEIPT"))
    && (p.version == 2 ==>
          && p.destinationAssetId.Some? && SteamNumericId(p.destinationAssetId.value)
          && p.destinationContextId.GetOr("") in {"2", "16"}
          && p.mappingMethod.GetOr("") in {"STEAM_RECEIPT", "INVENTORY_DELTA"})
  }

  function BoundDeliveryProof(stored: StoredProof, a: Anchors): Option<Proof> {
    if stored.Stored? && Accepted(stored.proof, a) then Some(stored.proof) else None
  }

  /** getSteamProtectionMs: configuration can lengthen the protection, never shorten it. */
  function SteamProtectionMs(holdMs: int): int {
    if holdMs > MIN_STEAM_PROTECTION_MS then holdMs else MIN_STEAM_PROTECTION_MS
  }

  function ProofDeadline(stored: StoredProof, a: Anchors, holdMs: int): Option<Time> {
    match BoundDeliveryProof(stored, a)
    case None => None
    case Some(p) =>
      if p.version == 3 && (!Truthy(a.tradeBinding) || !p.bindingVerified) then None
      else if !p.verifiedAt.Canonical? || !p.protectionUntil.Canonical? then None
      else if p.protectionUntil.ms - p.verifiedAt.ms < SteamProtectionMs(holdMs) then None
      else Some(p.protectionUntil.ms)
  }

  predicate SupportsProofWindow(stored: StoredProof, a: Anchors, holdMs: int) {
    match BoundDeliveryProof(stored, a)
    case None => false
    case Some(p) =>
      && p.version == 3 && p.authority == Some("STEAM_RECEIPT") && p.bindingVerified
      && Truthy(a.tradeBinding) && ProofDeadline(stored, a, holdMs).Some?
  }

  // ----- The guard -----

  datatype Config = Config(
    realSettlement: bool,
    liveMode: bool,
    holdWindow: bool,
    extensionFirst: bool,
    holdMs: int,
    openRollout: bool,
    envAllowlist: set<string>,
    maxOrder: int,
    maxDailyOrders: nat,
    maxDailyVolume: int,
    proofWindow: bool,
    autoMaxOrder: int,
    autoMaxExposure: int)

  datatype OperationStatus = Waiting | DeliveryVerified | Confirmed | OtherStatus

  datatype Operation = Operation(
    status: OperationStatus,
    externalOfferId: Option<string>,
    expectedAssetId: Option<string>,
    deliveryProof: StoredProof,
    tradeBinding: Option<string>,
    manualReview: bool,
    failReasonCode: Option<string>)

  datatype Hold = Hold(
    amount: int,
    captured: int,
    released: int,
    holdUntil: Option<Time>,
    releasedAt: Option<Time>)

  /** The order row with its hold and the pricing of its lot, as loadOrder returns them. */
  datatype OrderView = OrderView(
    id: string,
    status: OS.OrderStatus,
    amount: int,
    holdAmount: int,
    hold: Hold,
    sellerReceive: int,
    commission: int)

  datatype AllowEntry = AllowEntry(enabled: bool, maxOrder: Option<int>)

  /** A fresh receipt read: no reader configured, an error, or an answer. */
  datatype ReceiptRead =
    | NoReader
    | ReadFailed
    | Receipt(reversal: bool, accepted: bool, verified: bool, conflict: bool, tradeId: string)

  /** Everything else the guard reads: steam ids, allowlist rows, ledger sums, provider answers. */
  datatype Evidence = Evidence(
    operation: Option<Operation>,
    buyerSteamId: Option<string>,
    sellerSteamId: Option<string>,
    allowlist: map<string, AllowEntry>,
    alreadySettled: bool,
    orderCount: nat,
    volume: int,
    recordedConflict: bool,
    reserveSum: int,
    exposure: int,
    receipt: ReceiptRead)

  datatype BlockCode =
    | AutoSettlementRiskLimit | SettlementReviewRequired | SettlementFinancialInconsistency
    | SettlementProtectionActive | SteamReversalDetected | SteamRecheckUnavailable
    | RealSettlementDisabled | NotLiveMode | TradeNotConfirmed | OrderNotTradeConfirmed
    | MissingBuyerSteamId | MissingSellerSteamId | BuyerNotAllowlisted | SellerNotAllowlisted
    | OrderAmountExceedsLimit | DailyOrderLimit | DailyVolumeLimit

  datatype Decision = Allowed | Blocked(code: BlockCode)

  /** resolveAllowlistEntry: None when not allowed, else the entry's own order limit, if it has one. */
  function AllowedLimit(c: Config, steamId: string, allowlist: map<string, AllowEntry>)
    : Option<Option<int>>
  {
    if c.openRollout || steamId in c.envAllowlist then Some(None)
    else if steamId in allowlist && allowlist[steamId].enabled then Some(allowlist[steamId].maxOrder)
    else None
  }

  function Capped(limit: int, candidate: Option<int>): int {
    if candidate.Some? && candidate.value < limit then candidate.value else limit
  }

  function EffectiveMaxOrder(maxOrder: int, buyerMax: Option<int>, sellerMax: Option<int>): int {
    Capped(Capped(maxOrder, buyerMax), sellerMax)
  }

  /** effectiveMaxOrderMinor: the loop lowers the limit to the smallest candidate. */
  method ComputeEffectiveMaxOrder(maxOrder: int, candidates: seq<Option<int>>) returns (limit: int)
    ensures limit <= maxOrder
    ensures forall c :: c in candidates && c.Some? ==> limit <= c.value
    ensures limit == maxOrder || Some(limit) in candidates
    ensures |candidates| == 2 ==> limit == EffectiveMaxOrder(maxOrder, candidates[0], candidates[1])
  {
    limit := maxOrder;
    for i := 0 to |candidates|
      invariant limit <= maxOrder
      invariant forall k :: 0 <= k < i && candidates[k].Some? ==> limit <= candidates[k].value
      invariant limit == maxOrder || Some(limit) in candidates
      invariant i == 0 ==> limit == maxOrder
      invariant i == 1 ==> limit == Capped(maxOrder, candidates[0])
      invariant i == 2 ==> limit == Capped(Capped(maxOrder, candidates[0]), candidates[1])
    {
      if candidates[i].Some? && candidates[i].value < limit {
        limit := candidates[i].value;
      }
    }
  }

  predicate IsDeliveryVerified(operation: Option<Operation>) {
    operation.Some? && (operation.value.status.DeliveryVerified? || operation.value.status.Confirmed?)
  }

  function AnchorsOf(o: OrderView, op: Operation, e: Evidence): Anchors {
    Anchors(o.id, op.externalOfferId.GetOr(""), op.expectedAssetId.GetOr(""),
            e.sellerSteamId.GetOr(""), e.buyerSteamId.GetOr(""), op.tradeBinding)
  }

  /** Hold, ledger and order agree on the amount, and nothing was paid yet. */
  predicate FinanciallyConsistent(o: OrderView, reserveSum: int) {
    && o.hold.amount == o.amount && o.holdAmount == o.amount
    && o.hold.captured == 0 && o.hold.released == 0 && o.hold.releasedAt.None?
    && o.sellerReceive >= 0 && o.commission >= 0
    && o.sellerReceive + o.commission == o.amount
    && reserveSum == -o.amount
  }

  /** The fresh receipt check of the guard, for an order whose protection has elapsed. */
  function ReceiptDecision(receipt: ReceiptRead, stored: Proof): Decision {
    match receipt
    case NoReader => Blocked(SteamRecheckUnavailable)
    case ReadFailed => Blocked(SteamRecheckUnavailable)
    case Receipt(reversal, accepted, verified, conflict, tradeId) =>
      if reversal then Blocked(SteamReversalDetected)
      else if !accepted || !verified || conflict || tradeId != stored.tradeId
      then Blocked(SteamRecheckUnavailable)
      else Allowed
  }

  /** The part of the guard that only orders in settlement hold pass through. */
  function HoldDecision(c: Config, o: OrderView, op: Operation, e: Evidence, now: Time): Decision {
    var a := AnchorsOf(o, op, e);
    var deadline := ProofDeadline(op.deliveryProof, a, c.holdMs);
    var stored := BoundDeliveryProof(op.deliveryProof, a);
    if op.manualReview
       || (Truthy(op.failReasonCode) && op.failReasonCode != Some("STEAM_RECHECK_UNAVAILABLE"))
    then Blocked(SettlementReviewRequired)
    else if e.recordedConflict then Blocked(SettlementReviewRequired)
    else if !FinanciallyConsistent(o, e.reserveSum) then Blocked(SettlementFinancialInconsistency)
    else if stored.None? || deadline.None? then Blocked(SteamRecheckUnavailable)
    else if deadline.value > now then Blocked(SettlementProtectionActive)
    else if c.proofWindow && SupportsProofWindow(op.deliveryProof, a, c.holdMs) then
      if c.autoMaxOrder <= 0 || c.autoMaxExposure <= 0 || o.amount > c.autoMaxOrder
         || e.exposure > c.autoMaxExposure
      then Blocked(AutoSettlementRiskLimit)
      else Allowed
    else ReceiptDecision(e.receipt, stored.value)
  }

  /** The ledger and budget part of the guard. */
  function BudgetDecision(c: Config, o: OrderView, e: Evidence): Decision {
    if e.alreadySettled then Blocked(SettlementFinancialInconsistency)
    else if e.orderCount >= c.maxDailyOrders then Blocked(DailyOrderLimit)
    else if e.volume + o.amount > c.maxDailyVolume then Blocked(DailyVolumeLimit)
    else Allowed
  }

  /** canSettle, in the order of its checks. */
  function CanSettle(c: Config, o: OrderView, e: Evidence, now: Time): Decision {
    if !c.realSettlement then Blocked(RealSettlementDisabled)
    else if !c.liveMode then Blocked(NotLiveMode)
    else if e.operation.None? then Blocked(TradeNotConfirmed)
    else if !IsDeliveryVerified(e.operation) then Blocked(TradeNotConfirmed)
    else if o.status != OS.TradeConfirmed && o.status != OS.SettlementHold
    then Blocked(OrderNotTradeConfirmed)
    else if !Truthy(e.buyerSteamId) then Blocked(MissingBuyerSteamId)
    else if !Truthy(e.sellerSteamId) then Blocked(MissingSellerSteamId)
    else
      var buyer := AllowedLimit(c, e.buyerSteamId.value, e.allowlist);
      var seller := AllowedLimit(c, e.sellerSteamId.value, e.allowlist);
      if buyer.None? then Blocked(BuyerNotAllowlisted)
      else if seller.None? then Blocked(SellerNotAllowlisted)
      else if o.amount <= 0 || o.amount > EffectiveMaxOrder(c.maxOrder, buyer.value, seller.value)
      then Blocked(OrderAmountExceedsLimit)
      else if BudgetDecision(c, o, e).Blocked? then BudgetDecision(c, o, e)
      else if o.status == OS.SettlementHold then HoldDecision(c, o, e.operation.value, e, now)
      else Allowed
  }

  // ----- The three entry points -----

  /** What an entry point does to the order: nothing, start the hold, or pay it out. */
  datatype Verdict = Keep | Enter(until: Time) | Pay

  datatype EntryPoint = TrySettleConfirmed | ReleaseDueHold | SettleCompleted

  /** The clock reads of one call: by the guard, by the due check, when entering, when releasing. */
  datatype Clock = Clock(guard: Time, due: Time, entered: Time, releaseDue: Time, paid: Time)

  function StoredProofOf(operation: Option<Operation>): StoredProof {
    if operation.Some? then operation.value.deliveryProof else NoProof
  }

  predicate IsHoldReleaseDue(o: OrderView, operation: Option<Operation>, now: Time) {
    && o.hold.releasedAt.None?
    && match StoredProofOf(operation)
       case Stored(p) => !p.protectionUntil.Unparsable? && p.protectionUntil.ms <= now
       case NotAnObject => false
       case NoProof => o.hold.holdUntil.Some? && o.hold.holdUntil.value <= now
  }

  predicate ShouldUseHoldWindow(c: Config) {
    c.realSettlement && c.holdWindow && c.extensionFirst
  }

  /** releaseSettlementHold pays only if its own checks still hold; its transition needs delivery. */
  predicate ReleasePays(c: Config, o: OrderView, e: Evidence, t: Clock) {
    && o.status == OS.SettlementHold && c.realSettlement
    && IsHoldReleaseDue(o, e.operation, t.releaseDue)
    && o.hold.releasedAt.None? && o.hold.captured <= 0
    && IsDeliveryVerified(e.operation)
  }

  /** When enterSettlementHold moves the order, and to which deadline. */
  function EnterVerdict(c: Config, o: OrderView, e: Evidence, t: Clock): Verdict {
    if o.status == OS.TradeConfirmed && IsDeliveryVerified(e.operation)
       && (StoredProofOf(e.operation) != NoProof || ShouldUseHoldWindow(c))
    then
      match StoredProofOf(e.operation)
      case Stored(p) =>
        Enter(if p.protectionUntil.Unparsable? then t.entered + SteamProtectionMs(c.holdMs)
              else p.protectionUntil.ms)
      case _ => Enter(t.entered + SteamProtectionMs(c.holdMs))
    else Keep
  }

  function Verdicts(entry: EntryPoint, c: Config, o: OrderView, e: Evidence, t: Clock): Verdict {
    match entry
    case TrySettleConfirmed =>
      if CanSettle(c, o, e, t.guard).Blocked? then Keep
      else if o.status == OS.SettlementHold then
        if IsHoldReleaseDue(o, e.operation, t.due) && ReleasePays(c, o, e, t) then Pay else Keep
      else EnterVerdict(c, o, e, t)
    case ReleaseDueHold =>
      if && o.status == OS.SettlementHold && c.realSettlement
         && IsHoldReleaseDue(o, e.operation, t.due)
         && CanSettle(c, o, e, t.guard).Allowed? && ReleasePays(c, o, e, t)
      then Pay else Keep
    case SettleCompleted =>
      if o.status == OS.SettlementHold then
        if && c.realSettlement && IsHoldReleaseDue(o, e.operation, t.due)
           && CanSettle(c, o, e, t.guard).Allowed? && ReleasePays(c, o, e, t)
        then Pay else Keep
      else EnterVerdict(c, o, e, t)
  }

  // ----- Main results -----

  /** A proof is good for at most one order: its anchors are determined by the proof. */
  lemma ProofIsBoundToOneOrder(p: Proof, a: Anchors, b: Anchors)
    requires Accepted(p, a) && Accepted(p, b)
    ensures a.orderId == b.orderId && a.offerId == b.offerId && a.originalAssetId == b.originalAssetId
    ensures a.sellerSteamId == b.sellerSteamId && a.buyerSteamId == b.buyerSteamId
    ensures p.version == 3 ==> a == b
  {
  }

  /** The rule the hold is for: a proof of this very order, verified at least eight days before `now`. */
  ghost predicate ProtectedForEightDays(o: OrderView, operation: Option<Operation>, e: Evidence, now: Time) {
    && operation.Some? && operation.value.deliveryProof.Stored?
    && var p := operation.value.deliveryProof.proof;
       && p.orderId == o.id
       && Some(p.offerId) == operation.value.externalOfferId
       && Some(p.originalAssetId) == operation.value.expectedAssetId
       && Some(p.sellerSteamId) == e.sellerSteamId && Some(p.buyerSteamId) == e.buyerSteamId
       && p.verifiedAt.Canonical?
       && p.verifiedAt.ms + MIN_STEAM_PROTECTION_MS <= now
  }

  lemma GuardNeedsEightDays(c: Config, o: OrderView, e: Evidence, now: Time)
    requires o.status == OS.SettlementHold
    requires CanSettle(c, o, e, now).Allowed?
    ensures ProtectedForEightDays(o, e.operation, e, now)
    ensures FinanciallyConsistent(o, e.reserveSum)
    ensures e.orderCount < c.maxDailyOrders && e.volume + o.amount <= c.maxDailyVolume
  {
    var op := e.operation.value;
    var a := AnchorsOf(o, op, e);
    assert HoldDecision(c, o, op, e, now).Allowed?;
    assert Accepted(op.deliveryProof.proof, a);
    assert SteamNumericId(op.deliveryProof.proof.offerId) && SteamNumericId(op.deliveryProof.proof.originalAssetId);
  }

  lemma OnlyHoldsPay(entry: EntryPoint, c: Config, o: OrderView, e: Evidence, t: Clock)
    requires Verdicts(entry, c, o, e, t).Pay?
    ensures o.status == OS.SettlementHold
  {
  }

  /** Every payout, through any entry point and under any configuration, obeys the eight-day rule. */
  lemma EveryPayoutIsProtected(entry: EntryPoint, c: Config, o: OrderView, e: Evidence, t: Clock)
    requires Verdicts(entry, c, o, e, t).Pay?
    requires t.guard <= t.paid
    ensures o.status == OS.SettlementHold
    ensures CanSettle(c, o, e, t.guard).Allowed?
    ensures ProtectedForEightDays(o, e.operation, e, t.paid)
  {
    GuardNeedsEightDays(c, o, e, t.guard);
  }

  /**
   Time is the only thing that turns the guard of a held order: if it ever allows these rows, then it
   allows them exactly from the proof's deadline on.
   */
  lemma GuardOpensAtTheDeadline(c: Config, o: OrderView, e: Evidence, once: Time, now: Time)
    requires o.status == OS.SettlementHold
    requires CanSettle(c, o, e, once).Allowed?
    ensures var deadline := ProofDeadline(e.operation.value.deliveryProof,
                                          AnchorsOf(o, e.operation.value, e), c.holdMs);
            deadline.Some? && (CanSettle(c, o, e, now).Allowed? <==> deadline.value <= now)
  {
    assert HoldDecision(c, o, e.operation.value, e, once).Allowed?;
  }

  /** Both other entry points agree with the release worker on a held order. */
  lemma EntryPointsAgreeOnHolds(entry: EntryPoint, c: Config, o: OrderView, e: Evidence, t: Clock)
    requires o.status == OS.SettlementHold
    ensures Verdicts(entry, c, o, e, t) == Verdicts(ReleaseDueHold, c, o, e, t)
  {
  }

  /** A hold entered with a bound proof lasts at least until that proof's protection ends. */
  lemma EnteredHoldCoversTheProtection(entry: EntryPoint, c: Config, o: OrderView, e: Evidence, t: Clock)
    requires Verdicts(entry, c, o, e, t).Enter?
    ensures o.status == OS.TradeConfirmed
    ensures StoredProofOf(e.operation).NoProof? ==>
              Verdicts(entry, c, o, e, t).until >= t.entered + MIN_STEAM_PROTECTION_MS
    ensures e.operation.Some?
            && BoundDeliveryProof(e.operation.value.deliveryProof, AnchorsOf(o, e.operation.value, e)).Some?
            ==> Verdicts(entry, c, o, e, t).until
                >= e.operation.value.deliveryProof.proof.verifiedAt.ms + MIN_STEAM_PROTECTION_MS
  {
  }
}
