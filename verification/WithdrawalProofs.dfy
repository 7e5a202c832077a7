/** Withdrawal accounting over every interleaving of approvals, rejections, webhooks and other money. */
module WithdrawalProofs {
  import opened Common
  import opened Withdrawals

  // ----- Sums -----

  lemma {:induction false} SumUpdate(t: Tally, rs: seq<Request>, i: nat, r: Request)
    requires i < |rs|
    ensures Sum(t, rs[i := r]) == Sum(t, rs) - Share(t, rs[i]) + Share(t, r)
  {
    var n := |rs| - 1;
    if i == n {
      assert rs[i := r][..n] == rs[..n];
    } else {
      assert rs[i := r][..n] == rs[..n][i := r];
      SumUpdate(t, rs[..n], i, r);
    }
  }

  lemma SumAppend(t: Tally, rs: seq<Request>, r: Request)
    ensures Sum(t, rs + [r]) == Sum(t, rs) + Share(t, r)
  {
    assert (rs + [r])[..|rs|] == rs;
  }

  lemma {:induction false} TotalUpdate(ws: seq<Wallet>, u: UserId, w: Wallet)
    requires u < |ws|
    ensures Total(ws[u := w]) == Total(ws) - ws[u].available - ws[u].frozen + w.available + w.frozen
  {
    var n := |ws| - 1;
    if u == n {
      assert ws[u := w][..n] == ws[..n];
    } else {
      assert ws[u := w][..n] == ws[..n][u := w];
      TotalUpdate(ws[..n], u, w);
    }
  }

  /** Everything counted since the midnight the guard read contains everything counted on that day or any later one. */
  lemma {:induction false} DayIsWithinWindow(rs: seq<Request>, u: UserId, guardAt: Time, day: Time)
    requires forall i :: 0 <= i < |rs| && Counted(rs[i].status) ==> rs[i].amount >= 0
    requires DayStart(guardAt) <= day
    ensures Sum(CountedOn(u, day), rs) <= UsedSince(rs, u, DayStart(guardAt))
  {
    if rs != [] {
      DayIsWithinWindow(rs[..|rs| - 1], u, guardAt, day);
      var r := rs[|rs| - 1];
      assert DayStart(r.createdAt) <= r.createdAt;
    }
  }

  // ----- The invariant -----

  ghost predicate HasEntry(d: Tables, u: UserId, key: Key, amount: int) {
    (u, key) in d.entries && d.entries[(u, key)] == amount
  }

  /** The ledger entries of a request are exactly those its status stands for. */
  ghost predicate RowOk(d: Tables, i: nat)
    requires i < |d.requests|
  {
    var r := d.requests[i];
    && r.user < |d.wallets|
    && r.net + r.fee == r.amount
    && r.net > 0 && r.fee >= 0
    && (if r.status in {Processing, Paid, Failed}
        then HasEntry(d, r.user, WithdrawKey(i), -r.net) && HasEntry(d, r.user, FeeKey(i), -r.fee)
        else (r.user, WithdrawKey(i)) !in d.entries && (r.user, FeeKey(i)) !in d.entries)
    && (if r.status.Failed? then HasEntry(d, r.user, RefundKey(i), r.amount)
        else (r.user, RefundKey(i)) !in d.entries)
  }

  ghost predicate RowsOk(d: Tables) {
    forall i :: 0 <= i < |d.requests| ==> RowOk(d, i)
  }

  predicate OwnKey(key: Key, id: RequestId) {
    key in {WithdrawKey(id), FeeKey(id), RefundKey(id)}
  }

  ghost predicate NoStrayEntries(d: Tables) {
    forall u, key, id: RequestId :: (u, key) in d.entries && OwnKey(key, id) ==> id < |d.requests|
  }

  ghost predicate FrozenOk(d: Tables) {
    forall u :: 0 <= u < |d.wallets| ==> d.wallets[u].frozen == Sum(PendingOf(u), d.requests)
  }

  ghost predicate MoneyOk(d: Tables) {
    Total(d.wallets) + Sum(Outstanding, d.requests) == d.funded
  }

  ghost predicate TablesOk(d: Tables) {
    RowsOk(d) && NoStrayEntries(d) && FrozenOk(d) && MoneyOk(d)
  }

  /** Columns that no call ever updates. */
  predicate SameTerms(r: Request, q: Request) {
    r.user == q.user && r.amount == q.amount && r.fee == q.fee && r.net == q.net
    && r.key == q.key && r.createdAt == q.createdAt
  }

  predicate CallOk(c: Config, d: Tables, call: Call) {
    match call
    case CreateCall(args) => args.amount > c.fee
    case ApproveCall(id, snap) => id < |d.requests| && SameTerms(snap, d.requests[id])
    case RejectCall(id, snap) => id < |d.requests| && SameTerms(snap, d.requests[id])
    case EventCall(_) => true
  }

  ghost predicate Inv(c: Config, s: State) {
    && TablesOk(s.d)
    && forall call :: call in s.inFlight ==> CallOk(c, s.d, call)
  }

  // ----- Moves of one request -----

  predicate StatusMove(from: Status, to: Status) {
    || from == to
    || (from.PendingReview? && (to.Processing? || to.Rejected?))
    || (from.Approved? && to.Processing?)
    || (from.Processing? && (to.Paid? || to.Failed?))
  }

  /** Nothing but the status of request `id`, its user's wallet and its own entries differs. */
  ghost predicate OneRequestMoved(d: Tables, e: Tables, id: RequestId) {
    && id < |d.requests| && d.requests[id].user < |d.wallets|
    && |e.requests| == |d.requests| && |e.wallets| == |d.wallets| && e.funded == d.funded
    && e.requests == d.requests[id := d.requests[id].(status := e.requests[id].status)]
    && StatusMove(d.requests[id].status, e.requests[id].status)
    && e.wallets == d.wallets[d.requests[id].user := e.wallets[d.requests[id].user]]
    && (forall k :: k in d.entries ==> k in e.entries && e.entries[k] == d.entries[k])
    && (forall u, key :: (u, key) in e.entries && (u, key) !in d.entries ==>
          u == d.requests[id].user && OwnKey(key, id))
  }

  lemma MoveKeepsTables(d: Tables, e: Tables, id: RequestId)
    requires TablesOk(d) && OneRequestMoved(d, e, id) && RowOk(e, id)
    requires var r := d.requests[id];
             var q := e.requests[id];
             var v := d.wallets[r.user];
             var w := e.wallets[r.user];
             && w.frozen - v.frozen == Share(PendingOf(r.user), q) - Share(PendingOf(r.user), r)
             && w.available + w.frozen - v.available - v.frozen == Share(Outstanding, r) - Share(Outstanding, q)
    ensures TablesOk(e)
  {
    var r := d.requests[id];
    var q := e.requests[id];
    forall i | 0 <= i < |e.requests| && i != id ensures RowOk(e, i) {
      assert RowOk(d, i) && e.requests[i] == d.requests[i];
    }
    forall u | 0 <= u < |e.wallets| ensures e.wallets[u].frozen == Sum(PendingOf(u), e.requests) {
      SumUpdate(PendingOf(u), d.requests, id, q);
    }
    SumUpdate(Outstanding, d.requests, id, q);
    TotalUpdate(d.wallets, r.user, e.wallets[r.user]);
  }

  /** A claimed approval debits exactly the amount, from the account that holds it. */
  lemma ApproveKeepsTables(c: Config, d: Tables, id: RequestId, snap: Request)
    requires TablesOk(d) && CallOk(c, d, ApproveCall(id, snap)) && CommitApprove(d, id, snap).Some?
    ensures var e := CommitApprove(d, id, snap).value;
            TablesOk(e) && OneRequestMoved(d, e, id) && e.events == d.events
  {
    var e := CommitApprove(d, id, snap).value;
    assert RowOk(d, id);
    assert e.requests == SetStatus(d, id, Processing).requests;
    MoveKeepsTables(d, e, id);
  }

  lemma RejectKeepsTables(c: Config, d: Tables, id: RequestId, snap: Request)
    requires TablesOk(d) && CallOk(c, d, RejectCall(id, snap)) && CommitReject(d, id, snap).Some?
    ensures var e := CommitReject(d, id, snap).value;
            TablesOk(e) && OneRequestMoved(d, e, id) && e.events == d.events
  {
    var e := CommitReject(d, id, snap).value;
    assert RowOk(d, id);
    MoveKeepsTables(d, e, id);
  }

  lemma PaidKeepsTables(c: Config, d: Tables, p: Payload, found: Option<RequestId>)
    requires TablesOk(d) && Located(d.requests, p, found) && HandlePaid(d, p, found).Some?
    ensures var e := HandlePaid(d, p, found).value;
            && TablesOk(e) && e.events == d.events
            && (e == d || (found.Some? && OneRequestMoved(d, e, found.value)))
  {
    var e := HandlePaid(d, p, found).value;
    if e != d {
      assert RowOk(d, found.value);
      MoveKeepsTables(d, e, found.value);
    }
  }

  lemma FailedKeepsTables(c: Config, d: Tables, p: Payload, found: Option<RequestId>)
    requires TablesOk(d) && Located(d.requests, p, found) && HandleFailed(d, p, found).Some?
    ensures var e := HandleFailed(d, p, found).value;
            && TablesOk(e) && e.events == d.events
            && (e == d || (found.Some? && OneRequestMoved(d, e, found.value)))
  {
    var e := HandleFailed(d, p, found).value;
    if e != d {
      assert RowOk(d, found.value);
      MoveKeepsTables(d, e, found.value);
    }
  }

  // ----- Money that belongs to no request -----

  /** Only one available balance changed, and the funding record with it. */
  ghost predicate OneCredit(d: Tables, e: Tables, u: UserId, amount: int) {
    && u < |d.wallets|
    && e.requests == d.requests
    && e.wallets == d.wallets[u := d.wallets[u].(available := d.wallets[u].available + amount)]
    && e.funded == d.funded + amount
    && (forall k :: k in d.entries ==> k in e.entries && e.entries[k] == d.entries[k])
    && (forall v, key, id: RequestId :: (v, key) in e.entries && OwnKey(key, id) ==> (v, key) in d.entries)
  }

  lemma CreditKeepsTables(c: Config, d: Tables, e: Tables, u: UserId, amount: int)
    requires TablesOk(d) && OneCredit(d, e, u, amount)
    ensures TablesOk(e)
  {
    TotalUpdate(d.wallets, u, e.wallets[u]);
    forall i | 0 <= i < |e.requests| ensures RowOk(e, i) {
      assert RowOk(d, i);
      assert OwnKey(WithdrawKey(i), i) && OwnKey(FeeKey(i), i) && OwnKey(RefundKey(i), i);
    }
  }

  lemma DepositKeepsTables(c: Config, d: Tables, p: Payload)
    requires TablesOk(d) && HandleDeposit(c, d, p).Some?
    ensures TablesOk(HandleDeposit(c, d, p).value)
    ensures HandleDeposit(c, d, p).value.requests == d.requests
  {
    var e := HandleDeposit(c, d, p).value;
    if e != d {
      CreditKeepsTables(c, d, e, p.user, p.amount);
    }
  }

  lemma EventsDoNotMatter(c: Config, d: Tables, events: map<EventId, Event>)
    requires TablesOk(d)
    ensures TablesOk(d.(events := events))
  {
    var e := d.(events := events);
    forall i | 0 <= i < |e.requests| ensures RowOk(e, i) {
      assert RowOk(d, i);
    }
  }

  lemma EventKeepsTables(c: Config, d: Tables, p: Payload, found: Option<RequestId>)
    requires TablesOk(d) && Located(d.requests, p, found) && ProcessEvent(c, d, p, found).Some?
    ensures var e := ProcessEvent(c, d, p, found).value;
            && TablesOk(e)
            && (e.requests == d.requests || (found.Some? && found.value < |d.requests| && |e.requests| == |d.requests|
                && e.requests == d.requests[found.value := d.requests[found.value].(status := e.requests[found.value].status)]
                && StatusMove(d.requests[found.value].status, e.requests[found.value].status)))
  {
    var claimed := d.(events := d.events[p.event := d.events[p.event].(processed := true)]);
    EventsDoNotMatter(c, d, claimed.events);
    match p.kind
    case DepositCredited => DepositKeepsTables(c, claimed, p);
    case WithdrawalPaid => PaidKeepsTables(c, claimed, p, found);
    case WithdrawalFailed => FailedKeepsTables(c, claimed, p, found);
    case OtherType(_) =>
  }

  // ----- New requests -----

  lemma CreateKeepsRows(c: Config, d: Tables, a: CreateArgs, eligible: bool, guardAt: Time, createdAt: Time)
    requires RowsOk(d) && NoStrayEntries(d) && a.amount > c.fee
    requires CommitCreate(c, d, a, eligible, guardAt, createdAt).Some?
    ensures var e := CommitCreate(c, d, a, eligible, guardAt, createdAt).value;
            && RowsOk(e) && NoStrayEntries(e) && e.events == d.events
            && |e.requests| == |d.requests| + 1 && e.requests[..|d.requests|] == d.requests
  {
    var e := CommitCreate(c, d, a, eligible, guardAt, createdAt).value;
    var n := |d.requests|;
    assert OwnKey(WithdrawKey(n), n) && OwnKey(FeeKey(n), n) && OwnKey(RefundKey(n), n);
    forall i | 0 <= i < |e.requests| ensures RowOk(e, i) {
      if i < n {
        assert RowOk(d, i);
      }
    }
  }

  lemma CreateKeepsTables(c: Config, d: Tables, a: CreateArgs, eligible: bool, guardAt: Time, createdAt: Time)
    requires TablesOk(d) && CallOk(c, d, CreateCall(a)) && CommitCreate(c, d, a, eligible, guardAt, createdAt).Some?
    ensures var e := CommitCreate(c, d, a, eligible, guardAt, createdAt).value;
            && TablesOk(e) && e.events == d.events
            && |e.requests| == |d.requests| + 1 && e.requests[..|d.requests|] == d.requests
  {
    CreateKeepsRows(c, d, a, eligible, guardAt, createdAt);
    var e := CommitCreate(c, d, a, eligible, guardAt, createdAt).value;
    var row := e.requests[|d.requests|];
    forall u | 0 <= u < |e.wallets| ensures e.wallets[u].frozen == Sum(PendingOf(u), e.requests) {
      SumAppend(PendingOf(u), d.requests, row);
    }
    SumAppend(Outstanding, d.requests, row);
    TotalUpdate(d.wallets, a.user, e.wallets[a.user]);
  }

  // ----- Steps and runs -----

  /** Requests are only added, keep their terms, and only move along the status table. */
  ghost predicate RowsMoved(rs: seq<Request>, qs: seq<Request>) {
    && |rs| <= |qs|
    && forall i :: 0 <= i < |rs| ==> SameTerms(rs[i], qs[i]) && StatusMove(rs[i].status, qs[i].status)
  }

  lemma CommitKeepsTables(c: Config, d: Tables, call: Call, guardAt: Time, createdAt: Time, eligible: bool,
                          found: Option<RequestId>)
    requires TablesOk(d) && CallOk(c, d, call) && Commit(c, d, call, guardAt, createdAt, eligible, found).Some?
    ensures TablesOk(Commit(c, d, call, guardAt, createdAt, eligible, found).value)
    ensures RowsMoved(d.requests, Commit(c, d, call, guardAt, createdAt, eligible, found).value.requests)
  {
    match call
    case CreateCall(args) =>
      CreateKeepsTables(c, d, args, eligible, guardAt, createdAt);
      assert forall i :: 0 <= i < |d.requests| ==>
               Commit(c, d, call, guardAt, createdAt, eligible, found).value.requests[..|d.requests|][i] == d.requests[i];
    case ApproveCall(id, snap) => ApproveKeepsTables(c, d, id, snap);
    case RejectCall(id, snap) => RejectKeepsTables(c, d, id, snap);
    case EventCall(p) => EventKeepsTables(c, d, p, found);
  }

  lemma RefKeepsTables(c: Config, d: Tables, id: RequestId, ref: string)
    requires TablesOk(d) && id < |d.requests|
    ensures TablesOk(WithRef(d, id, ref))
  {
    var q := d.requests[id].(gatewayRef := Some(ref));
    var e := d.(requests := d.requests[id := q]);
    forall i | 0 <= i < |e.requests| ensures RowOk(e, i) {
      assert RowOk(d, i);
    }
    forall u | 0 <= u < |e.wallets| ensures e.wallets[u].frozen == Sum(PendingOf(u), e.requests) {
      SumUpdate(PendingOf(u), d.requests, id, q);
    }
    SumUpdate(Outstanding, d.requests, id, q);
  }

  lemma FinishKeepsTables(c: Config, s: State, a: Action)
    requires Inv(c, s) && a.Finish?
    ensures TablesOk(Step(c, s, a).d) && RowsMoved(s.d.requests, Step(c, s, a).d.requests)
  {
    if a.call in s.inFlight {
      assert CallOk(c, s.d, a.call);
      var r := Commit(c, s.d, a.call, a.guardAt, a.createdAt, a.eligible, a.found);
      if r.Some? {
        CommitKeepsTables(c, s.d, a.call, a.guardAt, a.createdAt, a.eligible, a.found);
      }
      assert Step(c, s, a).d == r.GetOr(s.d);
    }
  }

  lemma OtherMoneyKeepsTables(c: Config, s: State, u: UserId, delta: int)
    requires Inv(c, s)
    ensures TablesOk(Step(c, s, OtherMoney(u, delta)).d)
    ensures Step(c, s, OtherMoney(u, delta)).d.requests == s.d.requests
  {
    if u < |s.d.wallets| && s.d.wallets[u].available + delta >= 0 {
      CreditKeepsTables(c, s.d, Step(c, s, OtherMoney(u, delta)).d, u, delta);
    }
  }

  lemma OtherStepKeepsTables(c: Config, s: State, a: Action)
    requires Inv(c, s) && !a.Finish?
    ensures TablesOk(Step(c, s, a).d) && RowsMoved(s.d.requests, Step(c, s, a).d.requests)
  {
    match a
    case ReceiveWebhook(p) => EventsDoNotMatter(c, s.d, StoreEvent(s.d, p).events);
    case SetGatewayRef(id, ref) =>
      if id < |s.d.requests| {
        RefKeepsTables(c, s.d, id, ref);
      }
    case OtherMoney(u, delta) => OtherMoneyKeepsTables(c, s, u, delta);
    case _ =>
  }

  lemma StepKeepsInv(c: Config, s: State, a: Action)
    requires Inv(c, s)
    ensures Inv(c, Step(c, s, a))
    ensures RowsMoved(s.d.requests, Step(c, s, a).d.requests)
  {
    if a.Finish? {
      FinishKeepsTables(c, s, a);
    } else {
      OtherStepKeepsTables(c, s, a);
    }
    var t := Step(c, s, a);
    forall call | call in t.inFlight ensures CallOk(c, t.d, call) {
      if call in s.inFlight {
        assert CallOk(c, s.d, call);
      }
    }
  }

  lemma {:induction false} InitialIsInv(c: Config, s: State)
    requires Initial(s)
    ensures Inv(c, s)
  {
  }

  lemma {:induction false} RunKeepsInv(c: Config, s: State, acts: seq<Action>)
    requires Inv(c, s)
    ensures Inv(c, Run(c, s, acts))
    decreases |acts|
  {
    if acts != [] {
      StepKeepsInv(c, s, acts[0]);
      RunKeepsInv(c, Step(c, s, acts[0]), acts[1..]);
    }
  }

  // ----- The accounting of every request -----

  function EntryOr0(d: Tables, u: UserId, key: Key): int {
    if (u, key) in d.entries then d.entries[(u, key)] else 0
  }

  /** The net debit as the reconciliation adds it up from the ledger entries of one request. */
  function NetDebit(d: Tables, i: RequestId): int
    requires i < |d.requests|
  {
    var u := d.requests[i].user;
    -EntryOr0(d, u, WithdrawKey(i)) - EntryOr0(d, u, FeeKey(i)) - EntryOr0(d, u, RefundKey(i))
  }

  /** After any run: money has left for a request exactly while it is PROCESSING or PAID. */
  lemma WithdrawalAccounting(c: Config, s: State, acts: seq<Action>, i: RequestId, u: UserId)
    requires Initial(s)
    ensures var d := Run(c, s, acts).d;
            && (i < |d.requests| ==>
                  NetDebit(d, i) == (if d.requests[i].status in {Processing, Paid} then d.requests[i].amount else 0))
            && (u < |d.wallets| ==> d.wallets[u].frozen == Sum(PendingOf(u), d.requests))
            && Total(d.wallets) + Sum(Outstanding, d.requests) == d.funded
  {
    InitialIsInv(c, s);
    RunKeepsInv(c, s, acts);
    var d := Run(c, s, acts).d;
    if i < |d.requests| {
      assert RowOk(d, i);
    }
  }

  predicate Settled(status: Status) {
    status in {Paid, Failed, Rejected}
  }

  lemma {:induction false} RunKeepsSettled(c: Config, s: State, acts: seq<Action>, i: RequestId)
    requires Inv(c, s) && i < |s.d.requests| && Settled(s.d.requests[i].status)
    ensures var t := Run(c, s, acts);
            && i < |t.d.requests| && SameTerms(s.d.requests[i], t.d.requests[i])
            && t.d.requests[i].status == s.d.requests[i].status
    decreases |acts|
  {
    if acts != [] {
      StepKeepsInv(c, s, acts[0]);
      RunKeepsSettled(c, Step(c, s, acts[0]), acts[1..], i);
    }
  }

  /** A payout that was once seen PAID is never refunded, and one seen FAILED was refunded exactly once, for good. */
  lemma PaidIsNeverRefunded(c: Config, s: State, before: seq<Action>, after: seq<Action>, i: RequestId)
    requires Initial(s)
    requires var r := Run(c, s, before).d.requests; i < |r| && r[i].status in {Paid, Failed}
    ensures var r := Run(c, s, before).d.requests[i];
            var d := Run(c, Run(c, s, before), after).d;
            && i < |d.requests| && d.requests[i].status == r.status
            && (if r.status.Paid? then (r.user, RefundKey(i)) !in d.entries && NetDebit(d, i) == r.amount
                else HasEntry(d, r.user, RefundKey(i), r.amount) && NetDebit(d, i) == 0)
  {
    InitialIsInv(c, s);
    RunKeepsInv(c, s, before);
    var t := Run(c, s, before);
    RunKeepsInv(c, t, after);
    RunKeepsSettled(c, t, after, i);
    assert RowOk(Run(c, t, after).d, i);
  }

  // ----- The daily cap -----

  ghost predicate CapOk(c: Config, d: Tables) {
    c.dailyCap > 0 ==> forall u, day :: Sum(CountedOn(u, day), d.requests) <= c.dailyCap
  }

  /** Status moves only take amounts out of a day's count. */
  lemma {:induction false} CountedShrinks(rs: seq<Request>, qs: seq<Request>, u: UserId, day: Time)
    requires |rs| == |qs| && RowsMoved(rs, qs) && forall i :: 0 <= i < |rs| ==> rs[i].amount >= 0
    ensures Sum(CountedOn(u, day), qs) <= Sum(CountedOn(u, day), rs)
  {
    if rs != [] {
      var n := |rs| - 1;
      assert SameTerms(rs[n], qs[n]) && StatusMove(rs[n].status, qs[n].status);
      CountedShrinks(rs[..n], qs[..n], u, day);
    }
  }

  lemma AmountsArePositive(d: Tables)
    requires TablesOk(d)
    ensures forall i :: 0 <= i < |d.requests| ==> d.requests[i].amount > 0
  {
    forall i | 0 <= i < |d.requests| ensures d.requests[i].amount > 0 {
      assert RowOk(d, i);
    }
  }

  /** A new request keeps the cap if and only if the day it is dated on still has room for it. */
  lemma CreateKeepsCapExactly(c: Config, d: Tables, a: CreateArgs, eligible: bool, guardAt: Time, createdAt: Time)
    requires TablesOk(d) && CapOk(c, d) && CommitCreate(c, d, a, eligible, guardAt, createdAt).Some?
    ensures CapOk(c, CommitCreate(c, d, a, eligible, guardAt, createdAt).value)
            <==> (c.dailyCap > 0 ==> Sum(CountedOn(a.user, DayStart(createdAt)), d.requests) + a.amount <= c.dailyCap)
  {
    var e := CommitCreate(c, d, a, eligible, guardAt, createdAt).value;
    var row := e.requests[|d.requests|];
    forall u, day ensures Sum(CountedOn(u, day), e.requests)
                          == Sum(CountedOn(u, day), d.requests) + Share(CountedOn(u, day), row)
    {
      SumAppend(CountedOn(u, day), d.requests, row);
    }
    assert Share(CountedOn(a.user, DayStart(createdAt)), row) == a.amount;
  }

  /** It has room when the guard did not read a later day than the row is dated on. */
  lemma GuardLeavesRoom(c: Config, d: Tables, a: CreateArgs, eligible: bool, guardAt: Time, createdAt: Time)
    requires TablesOk(d) && CommitCreate(c, d, a, eligible, guardAt, createdAt).Some?
    requires DayStart(guardAt) <= DayStart(createdAt) && c.dailyCap > 0
    ensures Sum(CountedOn(a.user, DayStart(createdAt)), d.requests) + a.amount <= c.dailyCap
  {
    AmountsArePositive(d);
    DayIsWithinWindow(d.requests, a.user, guardAt, DayStart(createdAt));
  }

  /** The guard of a call reads no later day than the one its row is dated on. */
  predicate GuardNotAhead(a: Action) {
    a.Finish? ==> DayStart(a.guardAt) <= DayStart(a.createdAt)
  }

  predicate Creates(c: Config, s: State, a: Action) {
    && a.Finish? && a.call in s.inFlight && a.call.CreateCall?
    && CommitCreate(c, s.d, a.call.args, a.eligible, a.guardAt, a.createdAt).Some?
  }

  lemma OnlyCreatesAddRequests(c: Config, s: State, a: Action)
    requires Inv(c, s) && !Creates(c, s, a)
    ensures |Step(c, s, a).d.requests| == |s.d.requests|
  {
    if a.Finish? && a.call in s.inFlight && Commit(c, s.d, a.call, a.guardAt, a.createdAt, a.eligible, a.found).Some? {
      assert CallOk(c, s.d, a.call);
      match a.call
      case ApproveCall(id, snap) => ApproveKeepsTables(c, s.d, id, snap);
      case RejectCall(id, snap) => RejectKeepsTables(c, s.d, id, snap);
      case EventCall(p) => EventKeepsTables(c, s.d, p, a.found);
    }
  }

  lemma StepKeepsCap(c: Config, s: State, a: Action)
    requires Inv(c, s) && CapOk(c, s.d) && GuardNotAhead(a)
    ensures CapOk(c, Step(c, s, a).d)
  {
    if Creates(c, s, a) {
      CreateKeepsCapExactly(c, s.d, a.call.args, a.eligible, a.guardAt, a.createdAt);
      if c.dailyCap > 0 {
        GuardLeavesRoom(c, s.d, a.call.args, a.eligible, a.guardAt, a.createdAt);
      }
    } else {
      var t := Step(c, s, a);
      OnlyCreatesAddRequests(c, s, a);
      StepKeepsInv(c, s, a);
      AmountsArePositive(s.d);
      forall u, day ensures Sum(CountedOn(u, day), t.d.requests) <= Sum(CountedOn(u, day), s.d.requests) {
        CountedShrinks(s.d.requests, t.d.requests, u, day);
      }
    }
  }

  lemma {:induction false} RunKeepsCap(c: Config, s: State, acts: seq<Action>)
    requires Inv(c, s) && CapOk(c, s.d) && forall a :: a in acts ==> GuardNotAhead(a)
    ensures CapOk(c, Run(c, s, acts).d)
    decreases |acts|
  {
    if acts != [] {
      StepKeepsInv(c, s, acts[0]);
      StepKeepsCap(c, s, acts[0]);
      RunKeepsCap(c, Step(c, s, acts[0]), acts[1..]);
    }
  }

  /** In every run in which no guard reads a later day than its row is dated on, a user's counted requests of
      one day stay within the cap. */
  lemma DailyCapHolds(c: Config, s: State, acts: seq<Action>, u: UserId, now: Time)
    requires Initial(s) && c.dailyCap > 0 && forall a :: a in acts ==> GuardNotAhead(a)
    ensures Sum(CountedOn(u, DayStart(now)), Run(c, s, acts).d.requests) <= c.dailyCap
  {
    InitialIsInv(c, s);
    RunKeepsCap(c, s, acts);
  }

  const CAPPED: Config := Config(0, 1, 0, 100, false, 0)

  function Ask(key: string): CreateArgs {
    CreateArgs(0, "address", 60, key)
  }

  /** Two requests dated on day 0; the guard of the second already reads day 1. */
  function AskTwice(): seq<Action> {
    [BeginCreate(Ask("w1")), Finish(CreateCall(Ask("w1")), 0, 0, true, None),
     BeginCreate(Ask("w2")), Finish(CreateCall(Ask("w2")), DAY_MS, 0, true, None)]
  }

  function Asked(key: string): Request {
    Request(0, "address", 60, 0, 60, Approved, key, 0, None)
  }

  function RichUser(requests: seq<Request>, inFlight: multiset<Call>): State {
    State(Tables(requests, [Wallet(200, 0)], map[], map[], 200), inFlight)
  }

  lemma AskTwiceRuns()
    ensures Run(CAPPED, RichUser([], multiset{}), AskTwice()) == RichUser([Asked("w1"), Asked("w2")], multiset{})
  {
    var s0 := RichUser([], multiset{});
    var s1 := RichUser([], multiset{CreateCall(Ask("w1"))});
    var s2 := RichUser([Asked("w1")], multiset{});
    var s3 := RichUser([Asked("w1")], multiset{CreateCall(Ask("w2"))});
    var s4 := RichUser([Asked("w1"), Asked("w2")], multiset{});
    var acts := AskTwice();
    assert Step(CAPPED, s0, acts[0]) == s1;
    assert Step(CAPPED, s1, acts[1]) == s2;
    assert Step(CAPPED, s2, acts[2]) == s3;
    assert Step(CAPPED, s3, acts[3]) == s4 by {
      assert [Asked("w1")][..0] == [];
    }
    RunCons(CAPPED, s0, acts[0], acts[1..]);
    RunCons(CAPPED, s1, acts[1], acts[2..]);
    RunCons(CAPPED, s2, acts[2], acts[3..]);
    RunCons(CAPPED, s3, acts[3], []);
    assert acts == [acts[0]] + acts[1..] && acts[1..] == [acts[1]] + acts[2..];
    assert acts[2..] == [acts[2]] + acts[3..] && acts[3..] == [acts[3]] + [];
  }

  /** A guard that runs ahead of the row's date past midnight lets a day exceed its cap. */
  lemma GuardAheadBreaksTheCap()
    ensures CAPPED.dailyCap == 100 && Initial(RichUser([], multiset{}))
    ensures Sum(CountedOn(0, 0), Run(CAPPED, RichUser([], multiset{}), AskTwice()).d.requests) == 120
  {
    AskTwiceRuns();
    assert [Asked("w1"), Asked("w2")][..1] == [Asked("w1")] && [Asked("w1")][..0] == [];
  }

  // ----- A claimed review never lacks frozen money -----

  lemma {:induction false} PendingCovers(d: Tables, u: UserId, n: nat, i: nat)
    requires RowsOk(d) && n <= |d.requests|
    ensures Sum(PendingOf(u), d.requests[..n]) >= 0
    ensures i < n ==> Share(PendingOf(u), d.requests[i]) <= Sum(PendingOf(u), d.requests[..n])
  {
    if n > 0 {
      assert RowOk(d, n - 1);
      assert d.requests[..n][..n - 1] == d.requests[..n - 1];
      PendingCovers(d, u, n - 1, i);
    }
  }

  /** A review that still finds the row as it read it always goes through: the frozen account covers it. */
  lemma ReviewsNeverLackMoney(c: Config, s: State, acts: seq<Action>, call: Call)
    requires Initial(s) && call in Run(c, s, acts).inFlight
    requires (call.ApproveCall? || call.RejectCall?) && call.snap.status.PendingReview?
    ensures var d := Run(c, s, acts).d;
            && call.id < |d.requests|
            && (d.requests[call.id].status.PendingReview?
                <==> (if call.ApproveCall? then CommitApprove(d, call.id, call.snap)
                      else CommitReject(d, call.id, call.snap)).Some?)
  {
    InitialIsInv(c, s);
    RunKeepsInv(c, s, acts);
    var d := Run(c, s, acts).d;
    assert CallOk(c, d, call);
    assert RowOk(d, call.id);
    PendingCovers(d, call.snap.user, |d.requests|, call.id);
    assert d.requests[..|d.requests|] == d.requests;
  }

  /** An approval without review debits the available account, so it goes through exactly when that covers it. */
  lemma ApprovalNeedsTheMoney(c: Config, s: State, acts: seq<Action>, call: Call)
    requires Initial(s) && call in Run(c, s, acts).inFlight
    requires call.ApproveCall? && call.snap.status.Approved?
    ensures var d := Run(c, s, acts).d;
            && call.id < |d.requests| && d.requests[call.id].user < |d.wallets|
            && (CommitApprove(d, call.id, call.snap).Some?
                <==> d.requests[call.id].status.Approved?
                     && d.wallets[d.requests[call.id].user].available >= d.requests[call.id].amount)
  {
    InitialIsInv(c, s);
    RunKeepsInv(c, s, acts);
    var d := Run(c, s, acts).d;
    assert CallOk(c, d, call);
    assert RowOk(d, call.id);
  }

  // ----- Duplicated webhooks -----

  predicate Processed(d: Tables, event: EventId) {
    event in d.events && d.events[event].processed
  }

  lemma CommitKeepsProcessed(c: Config, d: Tables, call: Call, guardAt: Time, createdAt: Time, eligible: bool,
                             found: Option<RequestId>, event: EventId)
    requires Processed(d, event) && Commit(c, d, call, guardAt, createdAt, eligible, found).Some?
    ensures Processed(Commit(c, d, call, guardAt, createdAt, eligible, found).value, event)
  {
  }

  lemma {:induction false} RunKeepsProcessed(c: Config, s: State, acts: seq<Action>, event: EventId)
    requires Processed(s.d, event)
    ensures Processed(Run(c, s, acts).d, event)
    decreases |acts|
  {
    if acts != [] {
      var a := acts[0];
      if a.Finish? && a.call in s.inFlight && Commit(c, s.d, a.call, a.guardAt, a.createdAt, a.eligible, a.found).Some? {
        CommitKeepsProcessed(c, s.d, a.call, a.guardAt, a.createdAt, a.eligible, a.found, event);
      }
      RunKeepsProcessed(c, Step(c, s, a), acts[1..], event);
    }
  }

  /** Once an event was processed, however much later its copies arrive or finish, they change no table. */
  lemma ReplayedEventsChangeNothing(c: Config, s: State, acts: seq<Action>, p: Payload, now: Time,
                                    found: Option<RequestId>)
    requires Processed(s.d, p.event)
    ensures var t := Run(c, s, acts);
            && Step(c, t, ReceiveWebhook(p)) == t
            && Step(c, t, Finish(EventCall(p), now, now, true, found)).d == t.d
  {
    RunKeepsProcessed(c, s, acts, p.event);
  }

  // ----- The polling job -----

  function JobFinish(q: Polled, now: Time): seq<Action>
    requires q.remote.Some?
  {
    if q.remote.value.status.RemoteOther? then []
    else [ReceiveWebhook(JobPayload(q)), Finish(EventCall(JobPayload(q)), now, now, true, Some(q.id))]
  }

  /** The actions that one row of the job performs. */
  function JobActions(d: Tables, q: Polled, now: Time): seq<Action>
    requires q.id < |d.requests|
  {
    if !Agrees(q) then []
    else if d.requests[q.id].status.Processing?
    then [SetGatewayRef(q.id, q.remote.value.id)] + JobFinish(q, now)
    else JobFinish(q, now)
  }

  lemma RunCons(c: Config, s: State, a: Action, rest: seq<Action>)
    ensures Run(c, s, [a] + rest) == Run(c, Step(c, s, a), rest)
  {
    assert ([a] + rest)[1..] == rest;
  }

  /** A webhook whose two steps follow each other, whatever else is in flight. */
  lemma WebhookIsTwoSteps(c: Config, s: State, p: Payload, found: Option<RequestId>, now: Time)
    requires Located(s.d.requests, p, found)
    ensures Run(c, s, [ReceiveWebhook(p), Finish(EventCall(p), now, now, true, found)]).d
            == HandleWebhook(c, s.d, p, found)
  {
    var finish := Finish(EventCall(p), now, now, true, found);
    var t := Step(c, s, ReceiveWebhook(p));
    RunCons(c, s, ReceiveWebhook(p), [finish]);
    RunCons(c, t, finish, []);
    assert [finish] + [] == [finish];
  }

  lemma FinishIsARun(c: Config, s: State, q: Polled, now: Time)
    requires q.id < |s.d.requests| && q.remote.Some?
    ensures Run(c, s, JobFinish(q, now)).d
            == if q.remote.value.status.RemoteOther? then s.d else HandleWebhook(c, s.d, JobPayload(q), Some(q.id))
  {
    if !q.remote.value.status.RemoteOther? {
      WebhookIsTwoSteps(c, s, JobPayload(q), Some(q.id), now);
    }
  }

  /** One row of the job is a run of ordinary steps from any state, so every result about runs covers the job. */
  lemma JobIsARun(c: Config, s: State, q: Polled, now: Time)
    requires q.id < |s.d.requests|
    ensures Run(c, s, JobActions(s.d, q, now)).d == PollRow(c, s.d, q)
  {
    if Agrees(q) {
      var t := s;
      if s.d.requests[q.id].status.Processing? {
        RunCons(c, s, SetGatewayRef(q.id, q.remote.value.id), JobFinish(q, now));
        t := s.(d := WithRef(s.d, q.id, q.remote.value.id));
      }
      FinishIsARun(c, t, q, now);
    }
  }

  /**
   A final answer about a row that is still PROCESSING settles it, PAID or FAILED with the full refund, if and
   only if the event of that answer was not processed and, if it is stored, was stored for the same payload.
   */
  lemma JobSettlesTheRow(c: Config, d: Tables, q: Polled)
    requires TablesOk(d) && q.id < |d.requests| && d.requests[q.id].status.Processing?
    requires SameTerms(q.row, d.requests[q.id]) && q.remote.Some? && !q.remote.value.status.RemoteOther?
    requires q.remote.value.address == q.row.address && q.remote.value.amountSun == 10_000 * q.row.net
    ensures var p := JobPayload(q);
            var r := d.requests[q.id];
            var e := PollRow(c, d, q);
            && |e.requests| == |d.requests| && |e.wallets| == |d.wallets| && r.user < |d.wallets|
            && (if p.event in d.events ==> !d.events[p.event].processed && SameEvent(d.events[p.event], p)
                then e.requests[q.id].status == (if q.remote.value.status.RemotePaid? then Paid else Failed)
                     && e.requests[q.id].gatewayRef == Some(q.remote.value.id)
                     && e.wallets[r.user].available
                        == d.wallets[r.user].available + (if q.remote.value.status.RemotePaid? then 0 else r.amount)
                     && Reconcile(q.id, q.remote.value.status == RemotePaid) in e.events
                     && e.events[Reconcile(q.id, q.remote.value.status == RemotePaid)]
                        == (if q.remote.value.status.RemotePaid? then Event(WithdrawalPaid, r.user, r.net, true)
                            else Event(WithdrawalFailed, r.user, 0, true))
                else e.requests[q.id].status == Processing && e.wallets == d.wallets)
  {
    assert RowOk(d, q.id);
  }
}
