/**
 What single payment calls leave in the tables, on the fields alone, and what the wallets add up to over
 every run: deposits are credited once and in full, and a user's money is accounted for entry by entry.
 */
module WithdrawalLaws {
  import opened Common
  import opened Withdrawals
  import opened WithdrawalProofs

  // ----- Deposits -----

  /** The ledger entry of a deposit: that of its transaction, or of its event when it has none. */
  function EntryOf(p: Payload): (UserId, Key) {
    (p.user, if p.txHash.Some? then DepositTx(p.txHash.value) else DepositEvent(p.event))
  }

  /** A deposit of at least the minimum, by a user with a wallet, that was not credited before. */
  predicate Credits(c: Config, d: Tables, p: Payload) {
    0 < p.amount && c.minDeposit <= p.amount && p.user < |d.wallets| && EntryOf(p) !in d.entries
  }

  /** The tables after a user's available balance rose by `amount` under a new ledger entry. */
  function Deposited(d: Tables, entry: (UserId, Key), amount: int): Tables
    requires entry.0 < |d.wallets|
  {
    var w := d.wallets[entry.0];
    Tables(d.requests, d.wallets[entry.0 := Wallet(w.available + amount, w.frozen)], d.entries[entry := amount],
           d.events, d.funded + amount)
  }

  /**
   A deposit raises its user's available balance by its amount, exactly once, under an entry that says so, and
   nothing else; below the minimum or under a used entry it changes nothing; without an amount or for a user
   without a wallet it is refused.
   */
  lemma DepositIsExact(c: Config, d: Tables, p: Payload)
    ensures HandleDeposit(c, d, p) == None <==> p.amount <= 0 || (c.minDeposit <= p.amount && p.user >= |d.wallets|)
    ensures HandleDeposit(c, d, p).Some? ==>
              HandleDeposit(c, d, p).value == if Credits(c, d, p) then Deposited(d, EntryOf(p), p.amount) else d
  {
  }

  // ----- Webhooks -----

  /** The event is new, or stored for this very payload and not processed yet. */
  predicate FirstTime(d: Tables, p: Payload) {
    p.event in d.events ==>
      d.events[p.event] == Event(p.kind, p.user, p.amount, false)
  }

  function Marked(d: Tables, p: Payload, processed: bool): Tables {
    d.(events := d.events[p.event := Event(p.kind, p.user, p.amount, processed)])
  }

  /** A webhook that is a copy or conflicts with the stored event changes no request, wallet or entry. */
  lemma ConflictingEventChangesNothing(c: Config, d: Tables, p: Payload, found: Option<RequestId>)
    requires Located(d.requests, p, found) && !FirstTime(d, p)
    ensures HandleWebhook(c, d, p, found) == d
  {
    assert p.event in d.events;
    var e := d.events[p.event];
    assert e == Event(e.kind, e.user, e.amount, e.processed);
  }

  /** The first processing of a credited event credits its amount; a refused one is stored, and may come again. */
  lemma CreditedEventCreditsOnce(c: Config, d: Tables, p: Payload, found: Option<RequestId>)
    requires Located(d.requests, p, found) && FirstTime(d, p) && p.kind == DepositCredited
    ensures HandleWebhook(c, d, p, found)
            == if p.amount <= 0 || (c.minDeposit <= p.amount && p.user >= |d.wallets|) then Marked(d, p, false)
               else if Credits(c, d, p) then Marked(Deposited(d, EntryOf(p), p.amount), p, true)
               else Marked(d, p, true)
  {
    DepositIsExact(c, Marked(d, p, true), p);
    StoredOnce(d, p);
  }

  lemma StoredOnce(d: Tables, p: Payload)
    requires FirstTime(d, p)
    ensures StoreEvent(d, p) == Marked(d, p, false)
    ensures d.events[p.event := Event(p.kind, p.user, p.amount, false)][p.event := Event(p.kind, p.user, p.amount, true)]
            == d.events[p.event := Event(p.kind, p.user, p.amount, true)]
  {
  }

  /** The request a webhook names: by its id, or by the provider's reference or the key it was made under. */
  predicate Names(p: Payload, r: Request, i: RequestId) {
    || (p.external.Some? && (p.external.value.id == Some(i) || r.key == p.external.value.text))
    || (r.gatewayRef.Some? && r.gatewayRef.value == p.withdrawalId)
  }

  /** The lookup answers with a request that the webhook names, and with none only if it names none. */
  lemma LookupFindsTheNamed(rs: seq<Request>, p: Payload, found: Option<RequestId>)
    requires Located(rs, p, found)
    ensures found.Some? ==> found.value < |rs| && Names(p, rs[found.value], found.value)
    ensures found.None? ==> forall i :: 0 <= i < |rs| ==> !Names(p, rs[i], i)
  {
  }

  function Moved(d: Tables, i: RequestId, status: Status): seq<Request>
    requires i < |d.requests|
  {
    d.requests[i := d.requests[i].(status := status)]
  }

  /** A paid event settles the request it names, if that is its user's and is processing; it moves no money. */
  lemma PaidEventSettles(c: Config, d: Tables, p: Payload, found: Option<RequestId>)
    requires Located(d.requests, p, found) && FirstTime(d, p) && p.kind == WithdrawalPaid
    ensures HandleWebhook(c, d, p, found)
            == if found.None? then Marked(d, p, true)
               else if d.requests[found.value].user != p.user then Marked(d, p, false)
               else if d.requests[found.value].status != Processing then Marked(d, p, true)
               else Marked(d, p, true).(requests := Moved(d, found.value, Paid))
  {
    StoredOnce(d, p);
  }

  /** A failed event gives the money of a processing request back to its user, under the request's refund entry. */
  lemma FailedEventRefunds(c: Config, d: Tables, p: Payload, found: Option<RequestId>)
    requires TablesOk(d) && Located(d.requests, p, found) && FirstTime(d, p) && p.kind == WithdrawalFailed
    ensures HandleWebhook(c, d, p, found)
            == if found.None? then Marked(d, p, true)
               else if d.requests[found.value].user != p.user then Marked(d, p, false)
               else if d.requests[found.value].status != Processing || p.user >= |d.wallets| then Marked(d, p, true)
               else
                 var r, w := d.requests[found.value], d.wallets[p.user];
                 Marked(d, p, true).(requests := Moved(d, found.value, Failed),
                                     wallets := d.wallets[p.user := Wallet(w.available + r.amount, w.frozen)],
                                     entries := d.entries[(p.user, RefundKey(found.value)) := r.amount])
  {
    StoredOnce(d, p);
    if found.Some? {
      assert RowOk(d, found.value);
    }
  }

  // ----- Sums over ledger entries -----

  ghost function SumOf(entries: map<(UserId, Key), int>, ks: set<(UserId, Key)>): int
    requires ks <= entries.Keys
    decreases |ks|
  {
    if ks == {} then 0
    else
      var k :| k in ks;
      entries[k] + SumOf(entries, ks - {k})
  }

  lemma {:induction false} SumWithout(entries: map<(UserId, Key), int>, ks: set<(UserId, Key)>, k: (UserId, Key))
    requires ks <= entries.Keys && k in ks
    ensures SumOf(entries, ks) == entries[k] + SumOf(entries, ks - {k})
    decreases |ks|
  {
    var j :| j in ks && SumOf(entries, ks) == entries[j] + SumOf(entries, ks - {j});
    if j != k {
      SumWithout(entries, ks - {j}, k);
      SumWithout(entries, ks - {k}, j);
      assert ks - {j} - {k} == ks - {k} - {j};
    }
  }

  lemma {:induction false} SumAgrees(entries: map<(UserId, Key), int>, later: map<(UserId, Key), int>,
                                     ks: set<(UserId, Key)>)
    requires ks <= entries.Keys && ks <= later.Keys && forall k :: k in ks ==> later[k] == entries[k]
    ensures SumOf(later, ks) == SumOf(entries, ks)
    decreases |ks|
  {
    if ks != {} {
      var k :| k in ks;
      SumWithout(entries, ks, k);
      SumWithout(later, ks, k);
      SumAgrees(entries, later, ks - {k});
    }
  }

  predicate IsDeposit(key: Key) {
    key.DepositTx? || key.DepositEvent?
  }

  /** The deposit entries of one user, or of all. */
  ghost function DepositKeys(d: Tables, who: Option<UserId>): set<(UserId, Key)> {
    set k | k in d.entries && who.GetOr(k.0) == k.0 && IsDeposit(k.1)
  }

  ghost function DepositsOf(d: Tables, who: Option<UserId>): int {
    SumOf(d.entries, DepositKeys(d, who))
  }

  /** Entries stay, and no deposit entry is new. */
  ghost predicate SameDeposits(d: Tables, e: Tables) {
    && (forall k :: k in d.entries ==> k in e.entries && e.entries[k] == d.entries[k])
    && (forall k :: k in e.entries && IsDeposit(k.1) ==> k in d.entries)
  }

  lemma SameDepositsAddUp(d: Tables, e: Tables, who: Option<UserId>)
    requires SameDeposits(d, e)
    ensures DepositsOf(e, who) == DepositsOf(d, who)
  {
    assert DepositKeys(e, who) == DepositKeys(d, who);
    SumAgrees(d.entries, e.entries, DepositKeys(d, who));
  }

  lemma NewDepositAddsUp(d: Tables, entry: (UserId, Key), amount: int, who: Option<UserId>)
    requires entry !in d.entries && IsDeposit(entry.1) && entry.0 < |d.wallets|
    ensures DepositsOf(Deposited(d, entry, amount), who)
            == DepositsOf(d, who) + if who.GetOr(entry.0) == entry.0 then amount else 0
  {
    var e := Deposited(d, entry, amount);
    SumAgrees(d.entries, e.entries, DepositKeys(d, who));
    if who.GetOr(entry.0) == entry.0 {
      assert DepositKeys(e, who) == DepositKeys(d, who) + {entry};
      SumWithout(e.entries, DepositKeys(e, who), entry);
      assert DepositKeys(e, who) - {entry} == DepositKeys(d, who);
    } else {
      assert DepositKeys(e, who) == DepositKeys(d, who);
    }
  }

  // ----- A user's money -----

  /** What left a user's wallet for requests that are being paid or were paid. */
  function PaidOutOf(rs: seq<Request>, u: UserId): int {
    if rs == [] then 0
    else
      var r := rs[|rs| - 1];
      PaidOutOf(rs[..|rs| - 1], u) + if r.user == u && r.status in {Processing, Paid} then r.amount else 0
  }

  lemma {:induction false} PaidOutUpdate(rs: seq<Request>, i: nat, r: Request, u: UserId)
    requires i < |rs| && r.user == rs[i].user && r.amount == rs[i].amount
    ensures PaidOutOf(rs[i := r], u)
            == PaidOutOf(rs, u) + if r.user != u || (r.status in {Processing, Paid}) == (rs[i].status in {Processing, Paid})
                                  then 0 else if r.status in {Processing, Paid} then r.amount else -r.amount
  {
    var n := |rs| - 1;
    if i == n {
      assert rs[i := r][..n] == rs[..n];
    } else {
      assert rs[i := r][..n] == rs[..n][i := r];
      PaidOutUpdate(rs[..n], i, r, u);
    }
  }

  /** What a user brought in otherwise than by deposits: the wallet, with what is on its way out, less the deposits. */
  ghost function Base(d: Tables, u: UserId): int
    requires u < |d.wallets|
  {
    d.wallets[u].available + d.wallets[u].frozen + PaidOutOf(d.requests, u) - DepositsOf(d, Some(u))
  }

  /** The tables hold as many wallets, and what deposits did not bring is as before: the user's, and that of all. */
  ghost predicate SameBase(d: Tables, e: Tables, u: UserId) {
    && |e.wallets| == |d.wallets| && (u < |d.wallets| ==> Base(e, u) == Base(d, u))
    && e.funded - DepositsOf(e, None) == d.funded - DepositsOf(d, None)
  }

  lemma NoDepositKeepsBase(d: Tables, e: Tables, u: UserId)
    requires SameDeposits(d, e) && e.funded == d.funded && |e.wallets| == |d.wallets|
    requires u < |d.wallets| ==>
               e.wallets[u].available + e.wallets[u].frozen + PaidOutOf(e.requests, u)
               == d.wallets[u].available + d.wallets[u].frozen + PaidOutOf(d.requests, u)
    ensures SameBase(d, e, u)
  {
    SameDepositsAddUp(d, e, Some(u));
    SameDepositsAddUp(d, e, None);
  }

  lemma ApproveKeepsBase(c: Config, d: Tables, id: RequestId, snap: Request, u: UserId)
    requires TablesOk(d) && CallOk(c, d, ApproveCall(id, snap)) && CommitApprove(d, id, snap).Some?
    ensures SameBase(d, CommitApprove(d, id, snap).value, u)
  {
    var e := CommitApprove(d, id, snap).value;
    assert RowOk(d, id);
    PaidOutUpdate(d.requests, id, e.requests[id], u);
    NoDepositKeepsBase(d, e, u);
  }

  lemma RejectKeepsBase(c: Config, d: Tables, id: RequestId, snap: Request, u: UserId)
    requires TablesOk(d) && CallOk(c, d, RejectCall(id, snap)) && CommitReject(d, id, snap).Some?
    ensures SameBase(d, CommitReject(d, id, snap).value, u)
  {
    var e := CommitReject(d, id, snap).value;
    assert RowOk(d, id);
    PaidOutUpdate(d.requests, id, e.requests[id], u);
    NoDepositKeepsBase(d, e, u);
  }

  lemma CreateKeepsBase(c: Config, d: Tables, a: CreateArgs, eligible: bool, guardAt: Time, createdAt: Time, u: UserId)
    requires CommitCreate(c, d, a, eligible, guardAt, createdAt).Some?
    ensures SameBase(d, CommitCreate(c, d, a, eligible, guardAt, createdAt).value, u)
  {
    var e := CommitCreate(c, d, a, eligible, guardAt, createdAt).value;
    assert e.requests[..|d.requests|] == d.requests;
    NoDepositKeepsBase(d, e, u);
  }

  lemma DepositKeepsBase(c: Config, d: Tables, p: Payload, u: UserId)
    requires HandleDeposit(c, d, p).Some?
    ensures SameBase(d, HandleDeposit(c, d, p).value, u)
  {
    DepositIsExact(c, d, p);
    if Credits(c, d, p) {
      NewDepositAddsUp(d, EntryOf(p), p.amount, Some(u));
      NewDepositAddsUp(d, EntryOf(p), p.amount, None);
    }
  }

  lemma PaidKeepsBase(d: Tables, p: Payload, found: Option<RequestId>, u: UserId)
    requires Located(d.requests, p, found) && HandlePaid(d, p, found).Some?
    ensures SameBase(d, HandlePaid(d, p, found).value, u)
  {
    var e := HandlePaid(d, p, found).value;
    if e != d {
      PaidOutUpdate(d.requests, found.value, e.requests[found.value], u);
      NoDepositKeepsBase(d, e, u);
    }
  }

  lemma FailedKeepsBase(d: Tables, p: Payload, found: Option<RequestId>, u: UserId)
    requires TablesOk(d) && Located(d.requests, p, found) && HandleFailed(d, p, found).Some?
    ensures SameBase(d, HandleFailed(d, p, found).value, u)
  {
    var e := HandleFailed(d, p, found).value;
    if e != d {
      assert RowOk(d, found.value);
      PaidOutUpdate(d.requests, found.value, e.requests[found.value], u);
      NoDepositKeepsBase(d, e, u);
    }
  }

  lemma EventKeepsBase(c: Config, d: Tables, p: Payload, found: Option<RequestId>, u: UserId)
    requires TablesOk(d) && Located(d.requests, p, found) && ProcessEvent(c, d, p, found).Some?
    ensures SameBase(d, ProcessEvent(c, d, p, found).value, u)
  {
    var claimed := d.(events := d.events[p.event := d.events[p.event].(processed := true)]);
    EventsDoNotMatter(c, d, claimed.events);
    NoDepositKeepsBase(d, claimed, u);
    match p.kind
    case DepositCredited => DepositKeepsBase(c, claimed, p, u);
    case WithdrawalPaid => PaidKeepsBase(claimed, p, found, u);
    case WithdrawalFailed => FailedKeepsBase(claimed, p, found, u);
    case OtherType(_) =>
  }

  lemma CommitKeepsBase(c: Config, d: Tables, call: Call, guardAt: Time, createdAt: Time, eligible: bool,
                        found: Option<RequestId>, u: UserId)
    requires TablesOk(d) && CallOk(c, d, call) && Commit(c, d, call, guardAt, createdAt, eligible, found).Some?
    ensures SameBase(d, Commit(c, d, call, guardAt, createdAt, eligible, found).value, u)
  {
    match call
    case CreateCall(args) => CreateKeepsBase(c, d, args, eligible, guardAt, createdAt, u);
    case ApproveCall(id, snap) => ApproveKeepsBase(c, d, id, snap, u);
    case RejectCall(id, snap) => RejectKeepsBase(c, d, id, snap, u);
    case EventCall(p) => EventKeepsBase(c, d, p, found, u);
  }

  /** What one step brings by other services, to one user or to any: the money moves unless it would overdraw. */
  function OtherIn(s: State, a: Action, who: Option<UserId>): int {
    if a.OtherMoney? && who.GetOr(a.user) == a.user && a.user < |s.d.wallets|
       && 0 <= s.d.wallets[a.user].available + a.delta
    then a.delta else 0
  }

  function OtherOf(c: Config, s: State, acts: seq<Action>, who: Option<UserId>): int
    decreases |acts|
  {
    if acts == [] then 0 else OtherIn(s, acts[0], who) + OtherOf(c, Step(c, s, acts[0]), acts[1..], who)
  }

  lemma RefKeepsBase(d: Tables, id: RequestId, ref: string, u: UserId)
    requires id < |d.requests|
    ensures SameBase(d, WithRef(d, id, ref), u)
  {
    PaidOutUpdate(d.requests, id, WithRef(d, id, ref).requests[id], u);
    NoDepositKeepsBase(d, WithRef(d, id, ref), u);
  }

  lemma FinishKeepsBase(c: Config, s: State, a: Action, u: UserId)
    requires Inv(c, s) && a.Finish?
    ensures SameBase(s.d, Step(c, s, a).d, u)
  {
    if a.call in s.inFlight {
      assert CallOk(c, s.d, a.call);
      var r := Commit(c, s.d, a.call, a.guardAt, a.createdAt, a.eligible, a.found);
      if r.Some? {
        CommitKeepsBase(c, s.d, a.call, a.guardAt, a.createdAt, a.eligible, a.found, u);
      }
      assert Step(c, s, a).d == r.GetOr(s.d);
    }
  }

  /** What deposits did not bring grows by what other services bring, and by nothing else. */
  ghost predicate Grows(s: State, t: State, u: UserId, forUser: int, forAll: int) {
    && |t.d.wallets| == |s.d.wallets| && (u < |s.d.wallets| ==> Base(t.d, u) == Base(s.d, u) + forUser)
    && t.d.funded - DepositsOf(t.d, None) == s.d.funded - DepositsOf(s.d, None) + forAll
  }

  lemma StepAddsUp(c: Config, s: State, a: Action, u: UserId)
    requires Inv(c, s)
    ensures Grows(s, Step(c, s, a), u, OtherIn(s, a, Some(u)), OtherIn(s, a, None))
  {
    match a
    case Finish(_, _, _, _, _) => FinishKeepsBase(c, s, a, u);
    case SetGatewayRef(id, ref) =>
      if id < |s.d.requests| {
        RefKeepsBase(s.d, id, ref, u);
      }
    case _ =>
      SameDepositsAddUp(s.d, Step(c, s, a).d, Some(u));
      SameDepositsAddUp(s.d, Step(c, s, a).d, None);
  }

  lemma {:induction false} RunAddsUp(c: Config, s: State, acts: seq<Action>, u: UserId)
    requires Inv(c, s)
    ensures Grows(s, Run(c, s, acts), u, OtherOf(c, s, acts, Some(u)), OtherOf(c, s, acts, None))
    decreases |acts|
  {
    if acts != [] {
      StepAddsUp(c, s, acts[0], u);
      StepKeepsInv(c, s, acts[0]);
      RunAddsUp(c, Step(c, s, acts[0]), acts[1..], u);
    }
  }

  /** Nothing is credited before the first deposit. */
  lemma NothingDeposited(s: State, who: Option<UserId>)
    requires Initial(s)
    ensures DepositsOf(s.d, who) == 0
  {
    assert DepositKeys(s.d, who) == {};
  }

  /**
   After any run, a user's wallet and the payouts on their way or made add up to the starting balance, the user's
   deposit entries and what other services brought: no deposit is lost, doubled, or credited to another user.
   */
  lemma WalletsAddUp(c: Config, s: State, acts: seq<Action>, u: UserId)
    requires Initial(s) && u < |s.d.wallets|
    ensures var d := Run(c, s, acts).d;
            && u < |d.wallets|
            && d.wallets[u].available + d.wallets[u].frozen + PaidOutOf(d.requests, u)
               == s.d.wallets[u].available + DepositsOf(d, Some(u)) + OtherOf(c, s, acts, Some(u))
  {
    InitialIsInv(c, s);
    RunAddsUp(c, s, acts, u);
    NothingDeposited(s, Some(u));
  }

  /** What came into the wallets over a run is the deposit entries of all users and what other services brought. */
  lemma FundsAddUp(c: Config, s: State, acts: seq<Action>)
    requires Initial(s)
    ensures var d := Run(c, s, acts).d;
            && d.funded == s.d.funded + DepositsOf(d, None) + OtherOf(c, s, acts, None)
            && Total(d.wallets) + Sum(Outstanding, d.requests)
               == Total(s.d.wallets) + DepositsOf(d, None) + OtherOf(c, s, acts, None)
  {
    InitialIsInv(c, s);
    RunAddsUp(c, s, acts, 0);
    WithdrawalAccounting(c, s, acts, 0, 0);
    NothingDeposited(s, None);
  }

  // ----- New requests -----

  /** The user's requests that were not rejected. */
  ghost function Unrejected(rs: seq<Request>, u: UserId): set<nat> {
    set i | 0 <= i < |rs| && rs[i].user == u && rs[i].status != Rejected
  }

  lemma {:induction false} PriorRequestsAreCounted(rs: seq<Request>, u: UserId)
    ensures PriorCount(rs, u) == |Unrejected(rs, u)|
  {
    if rs == [] {
      assert Unrejected(rs, u) == {};
    } else {
      var n := |rs| - 1;
      PriorRequestsAreCounted(rs[..n], u);
      var before := Unrejected(rs[..n], u);
      assert n !in before;
      assert Unrejected(rs, u) == before + if rs[n].user == u && rs[n].status != Rejected then {n} else {};
    }
  }

  /**
   A new request starts under review exactly while its user has fewer unrejected requests than the configured
   number, and its money is then frozen; otherwise it starts approved, with no money moved.
   */
  lemma NewRequestIsReviewed(c: Config, d: Tables, a: CreateArgs, eligible: bool, guardAt: Time, createdAt: Time)
    requires CommitCreate(c, d, a, eligible, guardAt, createdAt).Some?
    ensures var e := CommitCreate(c, d, a, eligible, guardAt, createdAt).value;
            var review := c.manualReview && |Unrejected(d.requests, a.user)| < c.manualReviewCount;
            && a.user < |d.wallets|
            && e.requests == d.requests + [Request(a.user, a.address, a.amount, c.fee, a.amount - c.fee,
                                                   if review then PendingReview else Approved, a.key, createdAt, None)]
            && e.wallets == (if review
                             then d.wallets[a.user := Wallet(d.wallets[a.user].available - a.amount,
                                                             d.wallets[a.user].frozen + a.amount)]
                             else d.wallets)
            && e.entries == d.entries && e.events == d.events && e.funded == d.funded
  {
    PriorRequestsAreCounted(d.requests, a.user);
  }

  /** A new request is refused exactly for a user who may not withdraw, over the daily cap, under a used key, or for
      money that is to be frozen and is not there. */
  lemma NewRequestIsRefusedExactly(c: Config, d: Tables, a: CreateArgs, eligible: bool, guardAt: Time, createdAt: Time)
    ensures CommitCreate(c, d, a, eligible, guardAt, createdAt) == None
            <==> || !eligible || a.user >= |d.wallets|
                 || (c.dailyCap > 0 && c.dailyCap < UsedSince(d.requests, a.user, DayStart(guardAt)) + a.amount)
                 || (exists r :: r in d.requests && r.key == a.key)
                 || (c.manualReview && |Unrejected(d.requests, a.user)| < c.manualReviewCount
                     && (a.amount <= 0 || d.wallets[a.user].available < a.amount))
  {
    PriorRequestsAreCounted(d.requests, a.user);
    assert KeyTaken(d.requests, a.key) <==> exists r :: r in d.requests && r.key == a.key;
  }

  /** Days begin at midnight. */
  lemma MidnightComesBefore(t: Time)
    ensures DayStart(t) <= t < DayStart(t) + 24 * 60 * 60 * 1000
    ensures DayStart(t) % (24 * 60 * 60 * 1000) == 0
  {
  }

  /** Where nothing is dated on a later day, the window the guard adds up is exactly its day. */
  lemma {:induction false} WindowIsTheDay(rs: seq<Request>, u: UserId, guardAt: Time)
    requires forall r :: r in rs ==> DayStart(r.createdAt) <= DayStart(guardAt)
    ensures UsedSince(rs, u, DayStart(guardAt)) == Sum(CountedOn(u, DayStart(guardAt)), rs)
  {
    if rs != [] {
      var r := rs[|rs| - 1];
      assert r in rs;
      MidnightComesBefore(r.createdAt);
      MidnightComesBefore(guardAt);
      WindowIsTheDay(rs[..|rs| - 1], u, guardAt);
    }
  }

  /** What a request counts against the cap of its day: its amount, unless it failed or was rejected. */
  lemma CountsAgainstItsDay(u: UserId, day: Time, r: Request)
    ensures Share(CountedOn(u, day), r)
            == if r.user == u && DayStart(r.createdAt) == day && r.status != Failed && r.status != Rejected
               then r.amount else 0
  {
  }

  // ----- The terms of every request -----

  ghost predicate TermsOk(c: Config, s: State) {
    && (forall r :: r in s.d.requests ==>
          c.minWithdraw <= r.amount && r.fee == c.fee && 0 < r.net && r.net == r.amount - c.fee)
    && (forall i, j :: 0 <= i < j < |s.d.requests| ==> s.d.requests[i].key != s.d.requests[j].key)
    && (forall call :: call in s.inFlight && call.CreateCall? ==>
          c.minWithdraw <= call.args.amount && c.fee < call.args.amount)
  }

  lemma SameTermsStay(c: Config, s: State, t: State)
    requires TermsOk(c, s) && |t.d.requests| == |s.d.requests| && RowsMoved(s.d.requests, t.d.requests)
    requires forall call :: call in t.inFlight && call.CreateCall? ==>
               c.minWithdraw <= call.args.amount && c.fee < call.args.amount
    ensures TermsOk(c, t)
  {
    forall r | r in t.d.requests
      ensures c.minWithdraw <= r.amount && r.fee == c.fee && 0 < r.net && r.net == r.amount - c.fee
    {
      var i :| 0 <= i < |t.d.requests| && t.d.requests[i] == r;
      assert SameTerms(s.d.requests[i], r) && s.d.requests[i] in s.d.requests;
    }
    forall i, j | 0 <= i < j < |t.d.requests| ensures t.d.requests[i].key != t.d.requests[j].key {
      assert SameTerms(s.d.requests[i], t.d.requests[i]) && SameTerms(s.d.requests[j], t.d.requests[j]);
    }
  }

  lemma NewTermsAreOk(c: Config, s: State, a: Action)
    requires TermsOk(c, s) && Creates(c, s, a)
    ensures TermsOk(c, Step(c, s, a))
  {
    NewRequestIsReviewed(c, s.d, a.call.args, a.eligible, a.guardAt, a.createdAt);
    NewRequestIsRefusedExactly(c, s.d, a.call.args, a.eligible, a.guardAt, a.createdAt);
    var t := Step(c, s, a);
    var row := t.d.requests[|s.d.requests|];
    assert t.d.requests == s.d.requests + [row];
    forall i | 0 <= i < |s.d.requests| ensures s.d.requests[i].key != row.key {
      assert s.d.requests[i] in s.d.requests;
    }
  }

  lemma StepKeepsTerms(c: Config, s: State, a: Action)
    requires Inv(c, s) && TermsOk(c, s)
    ensures TermsOk(c, Step(c, s, a))
  {
    if Creates(c, s, a) {
      NewTermsAreOk(c, s, a);
    } else {
      StepKeepsInv(c, s, a);
      OnlyCreatesAddRequests(c, s, a);
      SameTermsStay(c, s, Step(c, s, a));
    }
  }

  lemma {:induction false} RunKeepsTerms(c: Config, s: State, acts: seq<Action>)
    requires Inv(c, s) && TermsOk(c, s)
    ensures TermsOk(c, Run(c, s, acts))
    decreases |acts|
  {
    if acts != [] {
      StepKeepsInv(c, s, acts[0]);
      StepKeepsTerms(c, s, acts[0]);
      RunKeepsTerms(c, Step(c, s, acts[0]), acts[1..]);
    }
  }

  /** In every run each request is of at least the minimum, pays out its amount less the fee, which is never nothing,
      and no two requests were made under one key. */
  lemma RequestsMeetTheTerms(c: Config, s: State, acts: seq<Action>, i: nat, j: nat)
    requires Initial(s) && i < j < |Run(c, s, acts).d.requests|
    ensures var rs := Run(c, s, acts).d.requests;
            && rs[i].key != rs[j].key
            && c.minWithdraw <= rs[j].amount && rs[j].net == rs[j].amount - c.fee && 0 < rs[j].net
  {
    InitialIsInv(c, s);
    RunKeepsTerms(c, s, acts);
  }

  // ----- No wallet is overdrawn -----

  ghost predicate Solvent(d: Tables) {
    forall u :: 0 <= u < |d.wallets| ==> d.wallets[u].available >= 0 && d.wallets[u].frozen >= 0
  }

  lemma CommitIsSolvent(c: Config, d: Tables, call: Call, guardAt: Time, createdAt: Time, eligible: bool,
                        found: Option<RequestId>)
    requires Solvent(d) && Commit(c, d, call, guardAt, createdAt, eligible, found).Some?
    ensures Solvent(Commit(c, d, call, guardAt, createdAt, eligible, found).value)
  {
  }

  /** In every run no available and no frozen balance is ever overdrawn. */
  lemma {:induction false} NoWalletIsOverdrawn(c: Config, s: State, acts: seq<Action>)
    requires Solvent(s.d)
    ensures Solvent(Run(c, s, acts).d)
    decreases |acts|
  {
    if acts != [] {
      var a := acts[0];
      if a.Finish? && a.call in s.inFlight && Commit(c, s.d, a.call, a.guardAt, a.createdAt, a.eligible, a.found).Some? {
        CommitIsSolvent(c, s.d, a.call, a.guardAt, a.createdAt, a.eligible, a.found);
      }
      NoWalletIsOverdrawn(c, Step(c, s, a), acts[1..]);
    }
  }

  // ----- Reviews -----

  /** Approvals take up requests that are under review or approved, rejections only those under review. */
  lemma ReviewsTakeUpExactly(c: Config, s: State, id: RequestId)
    ensures Step(c, s, BeginApprove(id))
            == if id < |s.d.requests| && s.d.requests[id].status in {PendingReview, Approved}
               then s.(inFlight := s.inFlight + multiset{ApproveCall(id, s.d.requests[id])}) else s
    ensures Step(c, s, BeginReject(id))
            == if id < |s.d.requests| && s.d.requests[id].status == PendingReview
               then s.(inFlight := s.inFlight + multiset{RejectCall(id, s.d.requests[id])}) else s
  {
  }

  /** The first checks of a new request: a known user, the minimum, more than the fee, the money, a new key. */
  lemma AskIsAdmittedExactly(c: Config, s: State, a: CreateArgs)
    ensures Step(c, s, BeginCreate(a)).inFlight == s.inFlight + multiset{CreateCall(a)}
            <==> && a.user < |s.d.wallets| && c.minWithdraw <= a.amount && c.fee < a.amount
                 && a.amount <= s.d.wallets[a.user].available
                 && forall r :: r in s.d.requests ==> r.key != a.key
  {
    assert KeyTaken(s.d.requests, a.key) <==> exists r :: r in s.d.requests && r.key == a.key;
    assert |s.inFlight + multiset{CreateCall(a)}| == |s.inFlight| + 1;
  }

  /**
   In every run, an approval that takes effect makes the request PROCESSING and debits its amount from the account
   that holds it, in entries of the net payout and the fee; a rejection gives the frozen amount back.
   */
  lemma ReviewIsExact(c: Config, s: State, acts: seq<Action>, call: Call, now: Time)
    requires Initial(s) && call in Run(c, s, acts).inFlight && (call.ApproveCall? || call.RejectCall?)
    requires Commit(c, Run(c, s, acts).d, call, now, now, true, None).Some?
    ensures var d := Run(c, s, acts).d;
            var e := Commit(c, d, call, now, now, true, None).value;
            && call.id < |d.requests| && d.requests[call.id].user < |d.wallets|
            && var r, w := d.requests[call.id], d.wallets[d.requests[call.id].user];
               && r.status == call.snap.status
               && e.requests == Moved(d, call.id, if call.ApproveCall? then Processing else Rejected)
               && e.wallets == d.wallets[r.user := if call.RejectCall? then Wallet(w.available + r.amount, w.frozen - r.amount)
                                                   else if r.status == PendingReview then Wallet(w.available, w.frozen - r.amount)
                                                   else Wallet(w.available - r.amount, w.frozen)]
               && e.entries == (if call.RejectCall? then d.entries
                                else d.entries[(r.user, WithdrawKey(call.id)) := -r.net][(r.user, FeeKey(call.id)) := -r.fee])
               && e.events == d.events && e.funded == d.funded
  {
    InitialIsInv(c, s);
    RunKeepsInv(c, s, acts);
    var d := Run(c, s, acts).d;
    assert CallOk(c, d, call);
    assert RowOk(d, call.id);
  }

  // ----- Polled answers -----

  /** An answer about another payout, to another address or of another amount, is not acted on; one that agrees
      leaves its reference on a processing row. */
  lemma JobActsOnAgreementOnly(c: Config, d: Tables, q: Polled)
    requires q.id < |d.requests|
    ensures (q.remote.None? || q.remote.value.address != q.row.address || q.remote.value.amountSun != 10_000 * q.row.net)
            ==> PollRow(c, d, q) == d
    ensures q.remote == Some(Remote(q.remote.GetOr(Remote("", "", 0, RemoteOther)).id, q.row.address,
                                    10_000 * q.row.net, RemoteOther))
            && d.requests[q.id].status == Processing
            ==> PollRow(c, d, q)
                == d.(requests := d.requests[q.id := d.requests[q.id].(gatewayRef := Some(q.remote.value.id))])
  {
  }
}
