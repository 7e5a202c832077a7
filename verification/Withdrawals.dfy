/**
 Withdrawals: payments.service.ts on the request, wallet, ledger-entry and payment-event rows.

 Approve, reject and create read before their transaction starts, so those calls stay in flight with
 what they read. A webhook finds or stores its event row and processes it in a later transaction.
 A transaction that throws rolls back and leaves the tables as they were.
 */
module Withdrawals {
  import opened Common

  type UserId = nat
  type RequestId = nat
  type Time = int

  const DAY_MS: int := 86_400_000

  /** Days start at midnight UTC. */
  function DayStart(t: Time): Time {
    DAY_MS * (t / DAY_MS)
  }

  datatype Status = PendingReview | Approved | Processing | Paid | Failed | Rejected

  datatype Request = Request(
    user: UserId,
    address: string,
    amount: int,
    fee: int,
    net: int,
    status: Status,
    key: string,
    createdAt: Time,
    gatewayRef: Option<string>)

  datatype Wallet = Wallet(available: int, frozen: int)

  /** Event ids are texts; the job that polls the provider uses one text for each request and outcome. */
  datatype EventId = Named(text: string) | Reconcile(request: RequestId, paid: bool)

  /** The idempotency keys under which this service writes ledger entries. */
  datatype Key =
    | WithdrawKey(id: RequestId)
    | FeeKey(id: RequestId)
    | RefundKey(id: RequestId)
    | DepositTx(hash: string)
    | DepositEvent(event: EventId)

  datatype EventType = DepositCredited | WithdrawalPaid | WithdrawalFailed | OtherType(name: string)

  datatype Event = Event(kind: EventType, user: UserId, amount: int, processed: bool)

  /** An external reference, and the request id it spells when it starts with wd_. */
  datatype External = External(text: string, id: Option<RequestId>)

  /** A webhook; `amount` is the amount in minor units that its payload resolves to. */
  datatype Payload = Payload(
    event: EventId,
    kind: EventType,
    user: UserId,
    withdrawalId: string,
    external: Option<External>,
    txHash: Option<string>,
    amount: int)

  datatype Config = Config(
    minDeposit: nat,
    minWithdraw: nat,
    fee: nat,
    dailyCap: nat,
    manualReview: bool,
    manualReviewCount: nat)

  /** `funded` is the money that deposits and all other services brought into the wallets. */
  datatype Tables = Tables(
    requests: seq<Request>,
    wallets: seq<Wallet>,
    entries: map<(UserId, Key), int>,
    events: map<EventId, Event>,
    funded: int)

  // ----- Sums over the request table -----

  datatype Tally =
    | PendingOf(user: UserId)
    | Outstanding
    | CountedOn(user: UserId, day: Time)

  /** The statuses that count against the daily cap. */
  predicate Counted(status: Status) {
    status in {PendingReview, Approved, Processing, Paid}
  }

  function Share(t: Tally, r: Request): int {
    match t
    case PendingOf(u) => if r.user == u && r.status.PendingReview? then r.amount else 0
    case Outstanding => if r.status.Processing? || r.status.Paid? then r.amount else 0
    case CountedOn(u, day) =>
      if r.user == u && Counted(r.status) && DayStart(r.createdAt) == day then r.amount else 0
  }

  function Sum(t: Tally, rs: seq<Request>): int {
    if rs == [] then 0 else Sum(t, rs[..|rs| - 1]) + Share(t, rs[|rs| - 1])
  }

  /** The aggregate query of the daily cap: everything counted since `from`. */
  function UsedSince(rs: seq<Request>, u: UserId, from: Time): int {
    if rs == [] then 0
    else
      var r := rs[|rs| - 1];
      UsedSince(rs[..|rs| - 1], u, from)
      + if r.user == u && Counted(r.status) && r.createdAt >= from then r.amount else 0
  }

  function PriorCount(rs: seq<Request>, u: UserId): nat {
    if rs == [] then 0
    else
      var r := rs[|rs| - 1];
      PriorCount(rs[..|rs| - 1], u) + if r.user == u && !r.status.Rejected? then 1 else 0
  }

  // ----- The ledger operations -----

  /** withdraw: debit the frozen or the available account and write the payout and fee entries. */
  function LedgerWithdraw(d: Tables, r: Request, id: RequestId, fromFrozen: bool): Option<Tables> {
    if r.amount <= 0 || r.fee < 0 || r.net <= 0 || r.net + r.fee != r.amount || r.user >= |d.wallets| then None
    else if (r.user, WithdrawKey(id)) in d.entries then Some(d)
    else
      var w := d.wallets[r.user];
      if (if fromFrozen then w.frozen else w.available) < r.amount then None
      else if (r.user, FeeKey(id)) in d.entries then None
      else
        Some(d.(wallets := d.wallets[r.user := if fromFrozen then w.(frozen := w.frozen - r.amount)
                                               else w.(available := w.available - r.amount)],
                entries := d.entries[(r.user, WithdrawKey(id)) := -r.net][(r.user, FeeKey(id)) := -r.fee]))
  }

  function Freeze(d: Tables, u: UserId, amount: int): Option<Tables>
    requires u < |d.wallets|
  {
    var w := d.wallets[u];
    if amount <= 0 || w.available < amount then None
    else Some(d.(wallets := d.wallets[u := Wallet(w.available - amount, w.frozen + amount)]))
  }

  function ReleaseHold(d: Tables, u: UserId, amount: int): Option<Tables>
    requires u < |d.wallets|
  {
    var w := d.wallets[u];
    if amount <= 0 || w.frozen < amount then None
    else Some(d.(wallets := d.wallets[u := Wallet(w.available + amount, w.frozen - amount)]))
  }

  function CreditUnder(d: Tables, u: UserId, key: Key, amount: int): Tables
    requires u < |d.wallets|
  {
    if (u, key) in d.entries then d
    else d.(wallets := d.wallets[u := d.wallets[u].(available := d.wallets[u].available + amount)],
            entries := d.entries[(u, key) := amount])
  }

  // ----- Transactions; None when the call throws -----

  datatype CreateArgs = CreateArgs(user: UserId, address: string, amount: int, key: string)

  predicate KeyTaken(rs: seq<Request>, key: string) {
    exists i :: 0 <= i < |rs| && rs[i].key == key
  }

  /** The checks of createWithdrawal before its transaction. */
  predicate CreateAdmitted(c: Config, d: Tables, a: CreateArgs) {
    && a.user < |d.wallets|
    && a.amount >= c.minWithdraw
    && !KeyTaken(d.requests, a.key)
    && a.amount > c.fee
    && d.wallets[a.user].available >= a.amount
  }

  predicate NeedsReview(c: Config, d: Tables, u: UserId) {
    c.manualReview && PriorCount(d.requests, u) < c.manualReviewCount
  }

  /** `eligible`: the user exists, is not suspended, and meets the linking and sales conditions. The guard
      reads one clock for its midnight, and the row is dated by another. */
  function CommitCreate(c: Config, d: Tables, a: CreateArgs, eligible: bool, guardAt: Time, createdAt: Time)
    : Option<Tables>
  {
    if !eligible || a.user >= |d.wallets| then None
    else if c.dailyCap > 0 && UsedSince(d.requests, a.user, DayStart(guardAt)) + a.amount > c.dailyCap then None
    else
      var review := NeedsReview(c, d, a.user);
      var frozen := if review then Freeze(d, a.user, a.amount) else Some(d);
      if frozen.None? || KeyTaken(d.requests, a.key) then None
      else
        var row := Request(a.user, a.address, a.amount, c.fee, a.amount - c.fee,
                           if review then PendingReview else Approved, a.key, createdAt, None);
        Some(frozen.value.(requests := d.requests + [row]))
  }

  function SetStatus(d: Tables, id: RequestId, status: Status): Tables
    requires id < |d.requests|
  {
    d.(requests := d.requests[id := d.requests[id].(status := status)])
  }

  /** approveWithdrawal: claim the row in the status that was read, then debit. */
  function CommitApprove(d: Tables, id: RequestId, snap: Request): Option<Tables> {
    if !(snap.status.PendingReview? || snap.status.Approved?) then None
    else if id >= |d.requests| || d.requests[id].status != snap.status then None
    else LedgerWithdraw(SetStatus(d, id, Processing), snap, id, snap.status.PendingReview?)
  }

  /** rejectWithdrawal: claim a row under review, then release its hold. */
  function CommitReject(d: Tables, id: RequestId, snap: Request): Option<Tables> {
    if !snap.status.PendingReview? || id >= |d.requests| || !d.requests[id].status.PendingReview?
       || snap.user >= |d.wallets|
    then None
    else ReleaseHold(SetStatus(d, id, Rejected), snap.user, snap.amount)
  }

  predicate RefersTo(p: Payload, r: Request) {
    r.gatewayRef == Some(p.withdrawalId) || (p.external.Some? && r.key == p.external.value.text)
  }

  /** findWithdrawalForWebhook may answer `found`; the second query returns any matching row. */
  predicate Located(rs: seq<Request>, p: Payload, found: Option<RequestId>) {
    if p.external.Some? && p.external.value.id.Some? && p.external.value.id.value < |rs|
    then found == p.external.value.id
    else match found
         case Some(i) => i < |rs| && RefersTo(p, rs[i])
         case None => forall i :: 0 <= i < |rs| ==> !RefersTo(p, rs[i])
  }

  function HandleDeposit(c: Config, d: Tables, p: Payload): Option<Tables> {
    if p.amount <= 0 then None
    else if p.amount < c.minDeposit then Some(d)
    else if p.user >= |d.wallets| then None
    else
      var key := match p.txHash case Some(h) => DepositTx(h) case None => DepositEvent(p.event);
      var t := CreditUnder(d, p.user, key, p.amount);
      Some(t.(funded := if (p.user, key) in d.entries then d.funded else d.funded + p.amount))
  }

  function HandlePaid(d: Tables, p: Payload, found: Option<RequestId>): Option<Tables>
    requires Located(d.requests, p, found)
  {
    if found.None? then Some(d)
    else if d.requests[found.value].user != p.user then None
    else if d.requests[found.value].status.Processing? then Some(SetStatus(d, found.value, Paid))
    else Some(d)
  }

  function HandleFailed(d: Tables, p: Payload, found: Option<RequestId>): Option<Tables>
    requires Located(d.requests, p, found)
  {
    if found.None? then Some(d)
    else
      var r := d.requests[found.value];
      if r.user != p.user || r.user >= |d.wallets| then None
      else if !r.status.Processing? then Some(d)
      else if r.amount <= 0 then None
      else Some(CreditUnder(SetStatus(d, found.value, Failed), r.user, RefundKey(found.value), r.amount))
  }

  /** The first half of handleWebhook: find the event row or store it. */
  function StoreEvent(d: Tables, p: Payload): Tables {
    if p.event in d.events then d
    else d.(events := d.events[p.event := Event(p.kind, p.user, p.amount, false)])
  }

  predicate SameEvent(e: Event, p: Payload) {
    e.kind == p.kind && e.user == p.user && e.amount == p.amount
  }

  /** The transaction of handleWebhook: claim the unprocessed event, compare it with the payload, act. */
  function ProcessEvent(c: Config, d: Tables, p: Payload, found: Option<RequestId>): Option<Tables>
    requires Located(d.requests, p, found)
  {
    if p.event !in d.events || d.events[p.event].processed then None
    else if !SameEvent(d.events[p.event], p) then None
    else
      var e := d.(events := d.events[p.event := d.events[p.event].(processed := true)]);
      match p.kind
      case DepositCredited => HandleDeposit(c, e, p)
      case WithdrawalPaid => HandlePaid(e, p, found)
      case WithdrawalFailed => HandleFailed(e, p, found)
      case OtherType(_) => Some(e)
  }

  /** Both halves of handleWebhook without another call in between. */
  function HandleWebhook(c: Config, d: Tables, p: Payload, found: Option<RequestId>): Tables
    requires Located(d.requests, p, found)
  {
    if p.event in d.events && d.events[p.event].processed then d
    else ProcessEvent(c, StoreEvent(d, p), p, found).GetOr(StoreEvent(d, p))
  }

  // ----- The job that polls the provider about PROCESSING requests -----

  const SUN_PER_USD_MINOR: int := 10_000

  datatype RemoteStatus = RemotePaid | RemoteFailed | RemoteOther
  datatype Remote = Remote(id: string, address: string, amountSun: int, status: RemoteStatus)

  /** A row as the job read it, with what the provider then answered. */
  datatype Polled = Polled(id: RequestId, row: Request, remote: Option<Remote>)

  predicate Agrees(q: Polled) {
    q.remote.Some? && q.remote.value.address == q.row.address
    && q.remote.value.amountSun == q.row.net * SUN_PER_USD_MINOR
  }

  function WithRef(d: Tables, id: RequestId, ref: string): Tables
    requires id < |d.requests|
  {
    d.(requests := d.requests[id := d.requests[id].(gatewayRef := Some(ref))])
  }

  /** The webhook the job makes up from a final answer of the provider. */
  function JobPayload(q: Polled): Payload
    requires q.remote.Some?
  {
    var paid := q.remote.value.status.RemotePaid?;
    Payload(Reconcile(q.id, paid), if paid then WithdrawalPaid else WithdrawalFailed, q.row.user,
            q.remote.value.id, Some(External("wd_", Some(q.id))), None,
            if paid then q.remote.value.amountSun / SUN_PER_USD_MINOR else 0)
  }

  function PollRow(c: Config, d: Tables, q: Polled): Tables
    requires q.id < |d.requests|
  {
    if !Agrees(q) then d
    else
      var e := if d.requests[q.id].status.Processing? then WithRef(d, q.id, q.remote.value.id) else d;
      if q.remote.value.status.RemoteOther? then e else HandleWebhook(c, e, JobPayload(q), Some(q.id))
  }

  lemma PollKeepsCount(c: Config, d: Tables, q: Polled)
    requires q.id < |d.requests|
    ensures |PollRow(c, d, q).requests| == |d.requests|
  {
  }

  function PollRows(c: Config, d: Tables, qs: seq<Polled>): Tables
    requires forall k :: 0 <= k < |qs| ==> qs[k].id < |d.requests|
    decreases |qs|
  {
    if qs == [] then d
    else
      PollKeepsCount(c, d, qs[0]);
      PollRows(c, PollRow(c, d, qs[0]), qs[1..])
  }

  // ----- Runs -----

  datatype Call =
    | CreateCall(args: CreateArgs)
    | ApproveCall(id: RequestId, snap: Request)
    | RejectCall(id: RequestId, snap: Request)
    | EventCall(payload: Payload)

  datatype Action =
    | BeginCreate(args: CreateArgs)
    | BeginApprove(id: RequestId)
    | BeginReject(id: RequestId)
    | ReceiveWebhook(payload: Payload)
    | Finish(call: Call, guardAt: Time, createdAt: Time, eligible: bool, found: Option<RequestId>)
    | Drop(lost: Call)
    | SetGatewayRef(id: RequestId, ref: string)
    | OtherMoney(user: UserId, delta: int)

  datatype State = State(d: Tables, inFlight: multiset<Call>)

  function Commit(c: Config, d: Tables, call: Call, guardAt: Time, createdAt: Time, eligible: bool,
                  found: Option<RequestId>): Option<Tables>
  {
    match call
    case CreateCall(args) => CommitCreate(c, d, args, eligible, guardAt, createdAt)
    case ApproveCall(id, snap) => CommitApprove(d, id, snap)
    case RejectCall(id, snap) => CommitReject(d, id, snap)
    case EventCall(p) => if Located(d.requests, p, found) then ProcessEvent(c, d, p, found) else None
  }

  function Begin(s: State, call: Call): State {
    s.(inFlight := s.inFlight + multiset{call})
  }

  function Step(c: Config, s: State, a: Action): State {
    match a
    case BeginCreate(args) =>
      if CreateAdmitted(c, s.d, args) then Begin(s, CreateCall(args)) else s
    case BeginApprove(id) =>
      if id < |s.d.requests| && s.d.requests[id].status in {PendingReview, Approved}
      then Begin(s, ApproveCall(id, s.d.requests[id])) else s
    case BeginReject(id) =>
      if id < |s.d.requests| && s.d.requests[id].status.PendingReview?
      then Begin(s, RejectCall(id, s.d.requests[id])) else s
    case ReceiveWebhook(p) =>
      if p.event in s.d.events && s.d.events[p.event].processed then s
      else Begin(s.(d := StoreEvent(s.d, p)), EventCall(p))
    case Finish(call, guardAt, createdAt, eligible, found) =>
      if call !in s.inFlight then s
      else State(Commit(c, s.d, call, guardAt, createdAt, eligible, found).GetOr(s.d), s.inFlight - multiset{call})
    case Drop(lost) => s.(inFlight := s.inFlight - multiset{lost})
    case SetGatewayRef(id, ref) =>
      if id < |s.d.requests|
      then s.(d := WithRef(s.d, id, ref))
      else s
    case OtherMoney(u, delta) =>
      if u < |s.d.wallets| && s.d.wallets[u].available + delta >= 0
      then s.(d := s.d.(wallets := s.d.wallets[u := s.d.wallets[u].(available := s.d.wallets[u].available + delta)],
                        funded := s.d.funded + delta))
      else s
  }

  function Run(c: Config, s: State, acts: seq<Action>): State
    decreases |acts|
  {
    if acts == [] then s else Run(c, Step(c, s, acts[0]), acts[1..])
  }

  function Total(wallets: seq<Wallet>): int {
    if wallets == [] then 0
    else
      var w := wallets[|wallets| - 1];
      Total(wallets[..|wallets| - 1]) + w.available + w.frozen
  }

  /** No withdrawal has been asked for yet, and nothing is frozen. */
  ghost predicate Initial(s: State) {
    && s.d.requests == [] && s.d.entries == map[] && s.d.events == map[] && s.inFlight == multiset{}
    && s.d.funded == Total(s.d.wallets)
    && forall u :: 0 <= u < |s.d.wallets| ==> s.d.wallets[u].frozen == 0 && s.d.wallets[u].available >= 0
  }
}
