/**
 Order and lot statuses with their transition tables
 (order-state.service.ts and lot-state.service.ts).
 */
module OrderStates {
  import opened Common

  datatype OrderStatus =
    | Created | PaymentReserved | WaitingTrade | TradeConfirmed | SettlementHold
    | Completed | Failed | Dispute | Canceled

  datatype OrderEvent =
    | PaymentReservedEvent | TradeOperationCreated | DeliveryVerified
    | SettlementStarted | SettlementReleased | SettlementReversed
    | TimeoutDetected | MismatchDetected | UnknownStateDetected
    | CancelEvent | FailSafe | DisputeOpened
    | DisputeResolvedBuyer | DisputeResolvedSeller | LegacySettled

  datatype Rule = Rule(to: OrderStatus, needsDelivery: bool)

  /** ALLOWED_TRANSITIONS of the order service. */
  function AllowedNext(from: OrderStatus): set<OrderStatus> {
    match from
    case Created => {PaymentReserved, Canceled}
    case PaymentReserved => {WaitingTrade, Canceled, Failed}
    case WaitingTrade => {TradeConfirmed, Failed, Dispute, Canceled}
    case TradeConfirmed => {SettlementHold, Completed, Dispute}
    case SettlementHold => {Completed, Dispute}
    case Dispute => {Completed, Failed}
    case Completed | Failed | Canceled => {}
  }

  /** TRANSITION_RULES: the target and the guard of an event, if the event has a rule. */
  function RuleFor(from: OrderStatus, event: OrderEvent): Option<Rule> {
    match (from, event)
    case (Created, PaymentReservedEvent) => Some(Rule(PaymentReserved, false))
    case (PaymentReserved, TradeOperationCreated) => Some(Rule(WaitingTrade, false))
    case (WaitingTrade, DeliveryVerified) => Some(Rule(TradeConfirmed, false))
    case (TradeConfirmed, SettlementStarted) => Some(Rule(SettlementHold, true))
    case (SettlementHold, SettlementReleased) => Some(Rule(Completed, true))
    case (TradeConfirmed, LegacySettled) => Some(Rule(Completed, false))
    case (WaitingTrade, TimeoutDetected) => Some(Rule(Dispute, false))
    case (WaitingTrade, MismatchDetected) => Some(Rule(Dispute, false))
    case (WaitingTrade, UnknownStateDetected) => Some(Rule(Dispute, false))
    case (TradeConfirmed, UnknownStateDetected) => Some(Rule(Dispute, false))
    case (SettlementHold, SettlementReversed) => Some(Rule(Dispute, false))
    case (SettlementHold, UnknownStateDetected) => Some(Rule(Dispute, false))
    case (Created, CancelEvent) => Some(Rule(Canceled, false))
    case (PaymentReserved, CancelEvent) => Some(Rule(Canceled, false))
    case (WaitingTrade, CancelEvent) => Some(Rule(Canceled, false))
    case (WaitingTrade, FailSafe) => Some(Rule(Failed, false))
    case (WaitingTrade, DisputeOpened) => Some(Rule(Dispute, false))
    case (Dispute, DisputeResolvedBuyer) => Some(Rule(Failed, false))
    case (Dispute, DisputeResolvedSeller) => Some(Rule(Completed, false))
    case _ => None
  }

  predicate IsOpen(status: OrderStatus) {
    status in {Created, PaymentReserved, WaitingTrade, TradeConfirmed, SettlementHold, Dispute}
  }

  predicate IsTerminal(status: OrderStatus) {
    status in {Completed, Failed, Canceled}
  }

  datatype LotStatus = Draft | Active | Reserved | Sold | LotCanceled | Blocked

  /** ALLOWED_TRANSITIONS of the lot service. */
  function LotNext(from: LotStatus): set<LotStatus> {
    match from
    case Draft => {Active, LotCanceled, Blocked}
    case Active => {Reserved, LotCanceled, Blocked}
    case Reserved => {Active, Sold, Blocked}
    case Blocked => {Active, Sold}
    case Sold | LotCanceled => {}
  }

  // ----- The tables, read the other way -----

  /** Where an order may come from. */
  function CameFrom(to: OrderStatus): set<OrderStatus> {
    match to
    case Created => {}
    case PaymentReserved => {Created}
    case WaitingTrade => {PaymentReserved}
    case TradeConfirmed => {WaitingTrade}
    case SettlementHold => {TradeConfirmed}
    case Completed => {TradeConfirmed, SettlementHold, Dispute}
    case Failed => {PaymentReserved, WaitingTrade, Dispute}
    case Dispute => {WaitingTrade, TradeConfirmed, SettlementHold}
    case Canceled => {Created, PaymentReserved, WaitingTrade}
  }

  /** The one status an event leads to. */
  function Means(event: OrderEvent): OrderStatus {
    match event
    case PaymentReservedEvent => PaymentReserved
    case TradeOperationCreated => WaitingTrade
    case DeliveryVerified => TradeConfirmed
    case SettlementStarted => SettlementHold
    case SettlementReleased | LegacySettled | DisputeResolvedSeller => Completed
    case CancelEvent => Canceled
    case FailSafe | DisputeResolvedBuyer => Failed
    case _ => Dispute
  }

  /** The statuses in which an event has a rule. */
  function Heard(event: OrderEvent): set<OrderStatus> {
    match event
    case PaymentReservedEvent => {Created}
    case TradeOperationCreated => {PaymentReserved}
    case DeliveryVerified | TimeoutDetected | MismatchDetected | FailSafe | DisputeOpened => {WaitingTrade}
    case SettlementStarted | LegacySettled => {TradeConfirmed}
    case SettlementReleased | SettlementReversed => {SettlementHold}
    case UnknownStateDetected => {WaitingTrade, TradeConfirmed, SettlementHold}
    case CancelEvent => {Created, PaymentReserved, WaitingTrade}
    case DisputeResolvedBuyer | DisputeResolvedSeller => {Dispute}
  }

  /** How far along an order is; every move goes forward. */
  function Rank(status: OrderStatus): nat {
    match status
    case Created => 0
    case PaymentReserved => 1
    case WaitingTrade => 2
    case TradeConfirmed => 3
    case SettlementHold => 4
    case Dispute => 5
    case Completed | Failed | Canceled => 6
  }

  /** The table allows a move exactly from where its target may come from; no move goes back, and an order is open
      exactly while it can move on. */
  lemma MovesGoForward(from: OrderStatus, to: OrderStatus)
    ensures to in AllowedNext(from) <==> from in CameFrom(to)
    ensures to in AllowedNext(from) ==> Rank(from) < Rank(to)
    ensures IsOpen(from) <==> AllowedNext(from) != {}
    ensures IsTerminal(from) <==> AllowedNext(from) == {}
  {
    assert IsOpen(from) ==> Canceled in AllowedNext(from) || Completed in AllowedNext(from);
  }

  /** An event has a rule exactly where it is heard, the rule is an allowed move to what the event means, and exactly
      the two settlement events ask for the delivery. */
  lemma EventsAreMoves(from: OrderStatus, event: OrderEvent)
    ensures RuleFor(from, event).Some? <==> from in Heard(event)
    ensures RuleFor(from, event).Some? ==>
              RuleFor(from, event).value == Rule(Means(event), event == SettlementStarted || event == SettlementReleased)
              && Means(event) in AllowedNext(from)
  {
  }

  /** Lots: sold only while reserved or blocked, reserved only while on sale, canceled only before that. */
  lemma LotMovesExactly(from: LotStatus, to: LotStatus)
    ensures to in LotNext(from)
            <==> match to
                 case Draft => false
                 case Active => from in {Draft, Reserved, Blocked}
                 case Reserved => from == Active
                 case Sold => from in {Reserved, Blocked}
                 case LotCanceled => from in {Draft, Active}
                 case Blocked => from in {Draft, Active, Reserved}
  {
  }
}
