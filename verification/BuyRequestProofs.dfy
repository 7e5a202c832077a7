/** The reserve of every buy request, over every interleaving of fulfil, cancel, expire and purchases. */
module BuyRequestProofs {
  import opened BuyRequests

  // ----- Commits keep the tables sound -----

  /** One request changed, together with the hold account of its buyer and one release entry. */
  ghost predicate Released(d: Tables, e: Tables, id: RequestId, q: Request, amount: int, key: Key) {
    && id < |d.requests| && SameTerms(d.requests[id], q)
    && q.buyer < |d.wallets|
    && e.requests == d.requests[id := q]
    && (q.buyer, key) !in d.entries
    && e.entries == d.entries[(q.buyer, key) := amount]
    && var w := d.wallets[q.buyer];
       e.wallets == d.wallets[q.buyer := w.(available := w.available + amount, held := w.held - amount)]
  }

  lemma ReleaseKeepsTables(d: Tables, e: Tables, id: RequestId, q: Request, amount: int, key: Key)
    requires TablesOk(d) && Released(d, e, id, q, amount, key) && key.id == id
    requires amount == d.requests[id].reserved - q.reserved
    requires Sized(q) && Recorded(e, id)
    ensures TablesOk(e)
  {
    forall i | 0 <= i < |e.requests| ensures RowOk(e, i) {
      assert RowOk(d, i);
    }
    forall u | 0 <= u < |e.wallets|
      ensures e.wallets[u].orders >= 0
              && e.wallets[u].held == e.wallets[u].orders + ReservedBy(e.requests, u)
    {
      ReservedByUpdate(d.requests, id, q, u);
    }
  }

  lemma RestAfterOne(r: Request)
    ensures Rest(r.(filled := r.filled + 1)) == Rest(r) - r.maxPrice
  {
  }

  lemma MulGrows(a: int, b: int)
    requires a > 0 && b >= 1
    ensures a <= a * b
  {
    assert a * b == a + a * (b - 1);
    assert a * (b - 1) >= 0;
  }

  lemma RestIsPositive(r: Request)
    requires r.maxPrice > 0 && r.filled < r.quantity
    ensures r.maxPrice <= Rest(r)
  {
    MulGrows(r.maxPrice, r.quantity - r.filled);
  }

  /** The reserve of one request never exceeds what the hold account keeps for all of them. */
  lemma {:induction false} ReservedByCovers(d: Tables, n: nat, i: nat, u: UserId)
    requires n <= |d.requests| && forall k :: 0 <= k < |d.requests| ==> RowOk(d, k)
    ensures ReservedBy(d.requests[..n], u) >= 0
    ensures i < n && d.requests[i].buyer == u ==> d.requests[i].reserved <= ReservedBy(d.requests[..n], u)
  {
    if n > 0 {
      assert RowOk(d, n - 1);
      if d.requests[n - 1].status.Open? {
        RestIsPositive(d.requests[n - 1]);
      }
      assert d.requests[..n][..n - 1] == d.requests[..n - 1];
      ReservedByCovers(d, n - 1, i, u);
    }
  }

  lemma HoldCovers(d: Tables, i: nat)
    requires TablesOk(d) && i < |d.requests|
    ensures d.requests[i].buyer < |d.wallets| && d.requests[i].reserved <= d.wallets[d.requests[i].buyer].held
  {
    assert RowOk(d, i);
    ReservedByCovers(d, |d.requests|, i, d.requests[i].buyer);
    assert d.requests[..|d.requests|] == d.requests;
  }

  /** A fulfilment whose claim succeeds always goes through, and releases exactly one unit. */
  lemma FulfillEffect(d: Tables, id: RequestId, snap: Request)
    requires TablesOk(d) && CallOk(d, Fulfill(id, snap)) && Unmoved(d, id, snap)
    ensures CommitFulfill(d, id, snap).Some?
    ensures var e := CommitFulfill(d, id, snap).value;
            && TablesOk(e)
            && Released(d, e, id, e.requests[id], snap.maxPrice, FulfillKey(id, snap.filled + 1))
            && e.requests[id].filled == snap.filled + 1
  {
    assert RowOk(d, id);
    var r := d.requests[id];
    RestAfterOne(r);
    RestIsPositive(r);
    HoldCovers(d, id);
    var e := CommitFulfill(d, id, snap).value;
    var q := e.requests[id];
    assert q.reserved == (if q.status.Open? then Rest(q) else 0);
    ReleaseKeepsTables(d, e, id, q, snap.maxPrice, FulfillKey(id, snap.filled + 1));
  }

  /** A cancellation or expiry whose claim succeeds always goes through, and releases the whole rest. */
  lemma CloseEffect(d: Tables, id: RequestId, snap: Request, status: Status, key: Key)
    requires TablesOk(d) && CallOk(d, Cancel(id, snap)) && Unmoved(d, id, snap)
    requires (status == Canceled && key == CancelKey(id)) || (status == Expired && key == ExpireKey(id))
    ensures CommitClose(d, id, snap, status, key).Some?
    ensures var e := CommitClose(d, id, snap, status, key).value;
            && TablesOk(e)
            && Released(d, e, id, d.requests[id].(reserved := 0, status := status), Rest(snap), key)
  {
    assert RowOk(d, id);
    RestIsPositive(snap);
    HoldCovers(d, id);
    var e := CommitClose(d, id, snap, status, key).value;
    ReleaseKeepsTables(d, e, id, d.requests[id].(reserved := 0, status := status), Rest(snap), key);
  }

  lemma {:induction false} CreateEffect(d: Tables, buyer: UserId, item: string, maxPrice: int, quantity: int)
    requires TablesOk(d) && quantity >= 1 && CommitCreate(d, buyer, item, maxPrice, quantity).Some?
    ensures var e := CommitCreate(d, buyer, item, maxPrice, quantity).value;
            && TablesOk(e)
            && e.requests == d.requests + [Request(buyer, item, maxPrice, quantity, 0, maxPrice * quantity, Open)]
  {
    var e := CommitCreate(d, buyer, item, maxPrice, quantity).value;
    var n := |d.requests|;
    var row := e.requests[n];
    assert maxPrice > 0;
    forall i | 0 <= i < |e.requests| ensures RowOk(e, i) {
      if i < n {
        assert RowOk(d, i);
      }
    }
    assert e.requests[..n] == d.requests;
  }

  // ----- Steps and runs -----

  predicate Claims(call: Call) {
    !call.Create?
  }

  /** Requests are only added; their terms stay; an open one only fills up, and a closed one never changes. */
  ghost predicate RowsMoved(rs: seq<Request>, qs: seq<Request>) {
    && |rs| <= |qs|
    && forall i :: 0 <= i < |rs| ==>
         SameTerms(rs[i], qs[i]) && rs[i].filled <= qs[i].filled && (!rs[i].status.Open? ==> qs[i] == rs[i])
  }

  lemma CommitKeepsTables(d: Tables, call: Call)
    requires TablesOk(d) && CallOk(d, call) && Commit(d, call).Some?
    ensures TablesOk(Commit(d, call).value) && RowsMoved(d.requests, Commit(d, call).value.requests)
  {
    match call
    case Create(buyer, item, maxPrice, quantity) => CreateEffect(d, buyer, item, maxPrice, quantity);
    case Fulfill(id, snap) => FulfillEffect(d, id, snap);
    case Cancel(id, snap) => CloseEffect(d, id, snap, Canceled, CancelKey(id));
    case Expire(id, snap) => CloseEffect(d, id, snap, Expired, ExpireKey(id));
  }

  lemma OrderMoneyKeepsTables(s: State, u: UserId, delta: int)
    requires TablesOk(s.d)
    ensures TablesOk(Step(s, OrderMoney(u, delta)).d)
  {
    var e := Step(s, OrderMoney(u, delta)).d;
    forall i | 0 <= i < |e.requests| ensures RowOk(e, i) {
      assert RowOk(s.d, i);
    }
  }

  lemma FinishKeepsTables(s: State, call: Call)
    requires Inv(s)
    ensures TablesOk(Step(s, Finish(call)).d) && RowsMoved(s.d.requests, Step(s, Finish(call)).d.requests)
  {
    if call in s.inFlight {
      assert CallOk(s.d, call);
      var r := Commit(s.d, call);
      if r.Some? {
        CommitKeepsTables(s.d, call);
      }
      assert Step(s, Finish(call)).d == r.GetOr(s.d);
    }
  }

  /** What a call reads when it starts is sound. */
  lemma BeginKeepsCalls(s: State, a: Action, call: Call)
    requires Inv(s) && call in Step(s, a).inFlight
    ensures CallOk(s.d, call)
  {
    if call in s.inFlight {
      assert CallOk(s.d, call);
    } else if Claims(call) {
      assert RowOk(s.d, call.id);
    }
  }

  lemma StepKeepsTables(s: State, a: Action)
    requires Inv(s)
    ensures TablesOk(Step(s, a).d) && RowsMoved(s.d.requests, Step(s, a).d.requests)
  {
    if a.Finish? {
      FinishKeepsTables(s, a.call);
    } else if a.OrderMoney? {
      OrderMoneyKeepsTables(s, a.user, a.delta);
    }
  }

  lemma StepKeepsInv(s: State, a: Action)
    requires Inv(s)
    ensures Inv(Step(s, a))
    ensures RowsMoved(s.d.requests, Step(s, a).d.requests)
  {
    StepKeepsTables(s, a);
    var t := Step(s, a);
    forall call | call in t.inFlight ensures CallOk(t.d, call) {
      BeginKeepsCalls(s, a, call);
    }
  }

  lemma {:induction false} RunKeepsInv(s: State, acts: seq<Action>)
    requires Inv(s)
    ensures Inv(Run(s, acts)) && RowsMoved(s.d.requests, Run(s, acts).d.requests)
    decreases |acts|
  {
    if acts != [] {
      StepKeepsInv(s, acts[0]);
      RunKeepsInv(Step(s, acts[0]), acts[1..]);
      var mid := Step(s, acts[0]).d.requests;
      var end := Run(s, acts).d.requests;
      forall i | 0 <= i < |s.d.requests|
        ensures SameTerms(s.d.requests[i], end[i]) && s.d.requests[i].filled <= end[i].filled
                && (!s.d.requests[i].status.Open? ==> end[i] == s.d.requests[i])
      {
        assert SameTerms(s.d.requests[i], mid[i]) && SameTerms(mid[i], end[i]);
      }
    }
  }

  lemma InitialIsInv(s: State)
    requires Initial(s)
    ensures Inv(s)
  {
  }

  // ----- Results about every run -----

  /** What the ledger released for a request: its filled units, and its rest once canceled or expired. */
  function UnitsReleased(d: Tables, i: RequestId, n: nat): int
    requires i < |d.requests|
  {
    if n == 0 then 0
    else
      UnitsReleased(d, i, n - 1)
      + if (d.requests[i].buyer, FulfillKey(i, n)) in d.entries
        then d.entries[(d.requests[i].buyer, FulfillKey(i, n))] else 0
  }

  function EntryOr0(d: Tables, u: UserId, key: Key): int {
    if (u, key) in d.entries then d.entries[(u, key)] else 0
  }

  function ReleasedFor(d: Tables, i: RequestId): int
    requires i < |d.requests| && d.requests[i].quantity >= 0
  {
    var u := d.requests[i].buyer;
    UnitsReleased(d, i, d.requests[i].quantity) + EntryOr0(d, u, CancelKey(i)) + EntryOr0(d, u, ExpireKey(i))
  }

  lemma {:induction false} UnitsReleasedIs(d: Tables, i: RequestId, n: nat)
    requires i < |d.requests| && RowOk(d, i)
    ensures var r := d.requests[i];
            UnitsReleased(d, i, n) == r.maxPrice * (if n <= r.filled then n else r.filled)
  {
    if n > 0 {
      UnitsReleasedIs(d, i, n - 1);
      var r := d.requests[i];
      if n <= r.filled {
        assert HasEntry(d, r.buyer, FulfillKey(i, n), r.maxPrice);
        assert r.maxPrice * n == r.maxPrice * (n - 1) + r.maxPrice;
      }
    }
  }

  /** In every reachable state an open request reserves exactly its unfilled rest and any other reserves nothing,
      and whatever was reserved at first was released or is still reserved. */
  lemma ReserveIsExact(s: State, acts: seq<Action>, i: RequestId)
    requires Initial(s) && i < |Run(s, acts).d.requests|
    ensures var d := Run(s, acts).d;
            var r := d.requests[i];
            && (r.status.Open? ==> 0 <= r.filled < r.quantity && r.reserved == r.maxPrice * (r.quantity - r.filled))
            && (!r.status.Open? ==> r.reserved == 0)
            && r.quantity >= 0
            && ReleasedFor(d, i) + r.reserved == r.maxPrice * r.quantity
            && HasEntry(d, r.buyer, ReserveKey(i), r.maxPrice * r.quantity)
  {
    InitialIsInv(s);
    RunKeepsInv(s, acts);
    var d := Run(s, acts).d;
    var r := d.requests[i];
    assert RowOk(d, i);
    UnitsReleasedIs(d, i, r.quantity);
    assert r.maxPrice * r.quantity == r.maxPrice * r.filled + Rest(r);
  }

  /** No purchase ever meets "Buy request reserve is inconsistent", and a claimed fulfilment never fails later. */
  lemma ReserveIsNeverInconsistent(s: State, acts: seq<Action>, id: RequestId, snap: Request)
    requires Initial(s) && Fulfill(id, snap) in Run(s, acts).inFlight
    ensures !Inconsistent(snap)
    ensures CommitFulfill(Run(s, acts).d, id, snap).Some? <==> Unmoved(Run(s, acts).d, id, snap)
  {
    InitialIsInv(s);
    RunKeepsInv(s, acts);
    var d := Run(s, acts).d;
    assert CallOk(d, Fulfill(id, snap));
    RestIsPositive(snap);
    if Unmoved(d, id, snap) {
      FulfillEffect(d, id, snap);
    }
  }

  /** A commit fills one unit or closes the request. */
  lemma CommitMovesOn(d: Tables, call: Call)
    requires TablesOk(d) && CallOk(d, call) && Claims(call) && Commit(d, call).Some?
    ensures var rs := Commit(d, call).value.requests;
            call.id < |rs| && (!rs[call.id].status.Open? || rs[call.id].filled > call.snap.filled)
  {
    match call
    case Fulfill(id, snap) => FulfillEffect(d, id, snap);
    case Cancel(id, snap) => CloseEffect(d, id, snap, Canceled, CancelKey(id));
    case Expire(id, snap) => CloseEffect(d, id, snap, Expired, ExpireKey(id));
  }

  lemma StaleClaimFails(d: Tables, call: Call)
    requires CallOk(d, call) && Claims(call)
    requires !d.requests[call.id].status.Open? || d.requests[call.id].filled > call.snap.filled
    ensures Commit(d, call).None?
  {
  }

  /** Of all calls that read the same fill level of a request, at most one ever commits. */
  lemma OneWinnerPerRead(s: State, before: seq<Action>, after: seq<Action>, first: Call, second: Call)
    requires Initial(s)
    requires Claims(first) && Claims(second) && first.id == second.id && first.snap.filled == second.snap.filled
    requires var t := Run(s, before); first in t.inFlight && Commit(t.d, first).Some?
    requires second in Run(Step(Run(s, before), Finish(first)), after).inFlight
    ensures Commit(Run(Step(Run(s, before), Finish(first)), after).d, second).None?
  {
    InitialIsInv(s);
    RunKeepsInv(s, before);
    var t := Run(s, before);
    var u := Step(t, Finish(first));
    StepKeepsInv(t, Finish(first));
    RunKeepsInv(u, after);
    var v := Run(u, after);
    assert CallOk(t.d, first) && CallOk(v.d, second);
    CommitMovesOn(t.d, first);
    StaleClaimFails(v.d, second);
  }
}
