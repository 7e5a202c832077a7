/** The withdrawal transactions of payments.service.ts, and the two loops that watch over them, on the tables. */
module WithdrawalService {
  import opened Common
  import W = Withdrawals
  import WP = WithdrawalProofs
  import WL = WithdrawalLaws

  class PaymentTables {
    var requests: seq<W.Request>
    var wallets: seq<W.Wallet>
    var entries: map<(W.UserId, W.Key), int>
    var events: map<W.EventId, W.Event>
    var funded: int

    function Snapshot(): W.Tables
      reads this
    {
      W.Tables(requests, wallets, entries, events, funded)
    }

    constructor (start: W.Tables)
      ensures Snapshot() == start
    {
      requests, wallets, entries, events, funded :=
        start.requests, start.wallets, start.entries, start.events, start.funded;
    }

    method Rollback(saved: W.Tables)
      modifies this
      ensures Snapshot() == saved
    {
      requests, wallets, entries, events, funded :=
        saved.requests, saved.wallets, saved.entries, saved.events, saved.funded;
    }

    /** LedgerService.withdraw. */
    method Withdraw(r: W.Request, id: W.RequestId, fromFrozen: bool) returns (ok: bool)
      modifies this`wallets, this`entries
      ensures var e := W.LedgerWithdraw(old(Snapshot()), r, id, fromFrozen);
              ok == e.Some? && Snapshot() == e.GetOr(old(Snapshot()))
    {
      if r.amount <= 0 || r.fee < 0 || r.net <= 0 || r.net + r.fee != r.amount || r.user >= |wallets| {
        return false;
      }
      if (r.user, W.WithdrawKey(id)) in entries {
        return true;
      }
      var w := wallets[r.user];
      var balance := if fromFrozen then w.frozen else w.available;
      if balance < r.amount || (r.user, W.FeeKey(id)) in entries {
        return false;
      }
      if fromFrozen {
        wallets := wallets[r.user := w.(frozen := balance - r.amount)];
      } else {
        wallets := wallets[r.user := w.(available := balance - r.amount)];
      }
      entries := entries[(r.user, W.WithdrawKey(id)) := -r.net];
      entries := entries[(r.user, W.FeeKey(id)) := -r.fee];
      ok := true;
    }

    /** The transaction of createWithdrawal: cap, review decision, freeze, new row. */
    method CreateWithdrawal(c: W.Config, a: W.CreateArgs, eligible: bool, guardAt: W.Time, createdAt: W.Time)
      returns (ok: bool)
      modifies this`requests, this`wallets
      ensures var e := W.CommitCreate(c, old(Snapshot()), a, eligible, guardAt, createdAt);
              ok == e.Some? && Snapshot() == e.GetOr(old(Snapshot()))
    {
      if !eligible || a.user >= |wallets| {
        return false;
      }
      if c.dailyCap > 0 {
        var used := W.UsedSince(requests, a.user, W.DayStart(guardAt));
        if used + a.amount > c.dailyCap {
          return false;
        }
      }
      var review := W.NeedsReview(c, Snapshot(), a.user);
      if W.KeyTaken(requests, a.key) {
        return false;
      }
      if review {
        var w := wallets[a.user];
        if a.amount <= 0 || w.available < a.amount {
          return false;
        }
        wallets := wallets[a.user := W.Wallet(w.available - a.amount, w.frozen + a.amount)];
      }
      requests := requests + [W.Request(a.user, a.address, a.amount, c.fee, a.amount - c.fee,
                                        if review then W.PendingReview else W.Approved, a.key, createdAt, None)];
      ok := true;
    }

    /** The transaction of approveWithdrawal for a row that was read as `snap`. */
    method ApproveWithdrawal(id: W.RequestId, snap: W.Request) returns (ok: bool)
      modifies this
      ensures var e := W.CommitApprove(old(Snapshot()), id, snap);
              ok == e.Some? && Snapshot() == e.GetOr(old(Snapshot()))
    {
      if !(snap.status.PendingReview? || snap.status.Approved?) {
        return false;
      }
      if id >= |requests| || requests[id].status != snap.status {
        return false;
      }
      var saved := Snapshot();
      requests := requests[id := requests[id].(status := W.Processing)];
      ok := Withdraw(snap, id, snap.status.PendingReview?);
      if !ok {
        Rollback(saved);
      }
    }

    /** The transaction of rejectWithdrawal for a row that was read as `snap`. */
    method RejectWithdrawal(id: W.RequestId, snap: W.Request) returns (ok: bool)
      modifies this
      ensures var e := W.CommitReject(old(Snapshot()), id, snap);
              ok == e.Some? && Snapshot() == e.GetOr(old(Snapshot()))
    {
      if !snap.status.PendingReview? || id >= |requests| || !requests[id].status.PendingReview?
         || snap.user >= |wallets|
      {
        return false;
      }
      var saved := Snapshot();
      requests := requests[id := requests[id].(status := W.Rejected)];
      var w := wallets[snap.user];
      if snap.amount <= 0 || w.frozen < snap.amount {
        Rollback(saved);
        return false;
      }
      wallets := wallets[snap.user := W.Wallet(w.available + snap.amount, w.frozen - snap.amount)];
      ok := true;
    }

    /** LedgerService.refundWithdrawal and applyDeposit: credit once under a key. */
    method CreditUnder(u: W.UserId, key: W.Key, amount: int) returns (moved: bool)
      requires u < |wallets|
      modifies this`wallets, this`entries
      ensures Snapshot() == W.CreditUnder(old(Snapshot()), u, key, amount)
      ensures moved == ((u, key) !in old(entries))
    {
      if (u, key) in entries {
        return false;
      }
      wallets := wallets[u := wallets[u].(available := wallets[u].available + amount)];
      entries := entries[(u, key) := amount];
      moved := true;
    }

    method HandlePaid(p: W.Payload, found: Option<W.RequestId>) returns (ok: bool)
      requires W.Located(requests, p, found)
      modifies this`requests
      ensures var e := W.HandlePaid(old(Snapshot()), p, found);
              ok == e.Some? && Snapshot() == e.GetOr(old(Snapshot()))
    {
      if found.None? {
        return true;
      }
      var r := requests[found.value];
      if r.user != p.user {
        return false;
      }
      if r.status.Processing? {
        requests := requests[found.value := r.(status := W.Paid)];
      }
      ok := true;
    }

    method HandleFailed(p: W.Payload, found: Option<W.RequestId>) returns (ok: bool)
      requires W.Located(requests, p, found)
      modifies this`requests, this`wallets, this`entries
      ensures var e := W.HandleFailed(old(Snapshot()), p, found);
              ok == e.Some? && Snapshot() == e.GetOr(old(Snapshot()))
    {
      if found.None? {
        return true;
      }
      var r := requests[found.value];
      if r.user != p.user || r.user >= |wallets| {
        return false;
      }
      if !r.status.Processing? {
        return true;
      }
      if r.amount <= 0 {
        return false;
      }
      requests := requests[found.value := r.(status := W.Failed)];
      var _ := CreditUnder(r.user, W.RefundKey(found.value), r.amount);
      ok := true;
    }

    method HandleDeposit(c: W.Config, p: W.Payload) returns (ok: bool)
      modifies this
      ensures var e := W.HandleDeposit(c, old(Snapshot()), p);
              ok == e.Some? && Snapshot() == e.GetOr(old(Snapshot()))
    {
      if p.amount <= 0 {
        return false;
      }
      if p.amount < c.minDeposit {
        return true;
      }
      if p.user >= |wallets| {
        return false;
      }
      var key := match p.txHash case Some(h) => W.DepositTx(h) case None => W.DepositEvent(p.event);
      var moved := CreditUnder(p.user, key, p.amount);
      if moved {
        funded := funded + p.amount;
      }
      ok := true;
    }

    /** handleWebhook: find or store the event, then claim it and act; a throw unclaims it. */
    method HandleWebhook(c: W.Config, p: W.Payload, found: Option<W.RequestId>)
      requires W.Located(requests, p, found)
      modifies this
      ensures Snapshot() == W.HandleWebhook(c, old(Snapshot()), p, found)
      ensures p.kind.DepositCredited? && WL.FirstTime(old(Snapshot()), p) && WL.Credits(c, old(Snapshot()), p) ==>
                Snapshot() == WL.Marked(WL.Deposited(old(Snapshot()), WL.EntryOf(p), p.amount), p, true)
      ensures !WL.FirstTime(old(Snapshot()), p) ==> Snapshot() == old(Snapshot())
    {
      ghost var before := Snapshot();
      if !WL.FirstTime(before, p) {
        WL.ConflictingEventChangesNothing(c, before, p, found);
      } else if p.kind.DepositCredited? {
        WL.CreditedEventCreditsOnce(c, before, p, found);
      }
      if p.event in events && events[p.event].processed {
        return;
      }
      if p.event !in events {
        events := events[p.event := W.Event(p.kind, p.user, p.amount, false)];
      }
      var saved := Snapshot();
      var persisted := events[p.event];
      events := events[p.event := persisted.(processed := true)];
      var ok := W.SameEvent(persisted, p);
      if ok {
        match p.kind
        case DepositCredited => ok := HandleDeposit(c, p);
        case WithdrawalPaid => ok := HandlePaid(p, found);
        case WithdrawalFailed => ok := HandleFailed(p, found);
        case OtherType(_) =>
      }
      if !ok {
        Rollback(saved);
      }
    }

    /** reconcileProcessingWithdrawals: ask the provider about each row that was read, and act on final answers. */
    method ReconcileProcessing(c: W.Config, qs: seq<W.Polled>)
      requires forall k :: 0 <= k < |qs| ==> qs[k].id < |requests|
      modifies this
      ensures Snapshot() == W.PollRows(c, old(Snapshot()), qs)
    {
      ghost var n := |requests|;
      var k := 0;
      while k < |qs|
        invariant 0 <= k <= |qs| && |requests| == n
        invariant W.PollRows(c, Snapshot(), qs[k..]) == W.PollRows(c, old(Snapshot()), qs)
      {
        ghost var before := Snapshot();
        var q := qs[k];
        W.PollKeepsCount(c, before, q);
        if W.Agrees(q) {
          if requests[q.id].status.Processing? {
            requests := requests[q.id := requests[q.id].(gatewayRef := Some(q.remote.value.id))];
          }
          if !q.remote.value.status.RemoteOther? {
            HandleWebhook(c, W.JobPayload(q), Some(q.id));
          }
        }
        assert Snapshot() == W.PollRow(c, before, q);
        assert qs[k..][1..] == qs[k + 1..];
        k := k + 1;
      }
    }
  }

  // ----- The daily check -----

  predicate Checked(status: W.Status) {
    status in {W.Paid, W.Processing, W.Failed}
  }

  /** A row whose ledger entries do not add up to what its status says. */
  predicate Mismatched(d: W.Tables, i: W.RequestId)
    requires i < |d.requests|
  {
    var r := d.requests[i];
    Checked(r.status) && WP.NetDebit(d, i) != (if r.status.Failed? then 0 else r.amount)
  }

  /** reconcileUserWithdrawals reports exactly the rows whose ledger entries disagree with their status. */
  method ReconcileUserWithdrawals(d: W.Tables) returns (issues: seq<W.RequestId>)
    ensures forall i: W.RequestId :: i in issues <==> i < |d.requests| && Mismatched(d, i)
    ensures forall j, k :: 0 <= j < k < |issues| ==> issues[j] < issues[k]
  {
    issues := [];
    var i := 0;
    while i < |d.requests|
      invariant 0 <= i <= |d.requests|
      invariant forall j: W.RequestId :: j in issues <==> j < i && Mismatched(d, j)
      invariant forall k :: 0 <= k < |issues| ==> issues[k] < i
      invariant forall j, k :: 0 <= j < k < |issues| ==> issues[j] < issues[k]
    {
      var r := d.requests[i];
      if Checked(r.status) {
        var debit := -WP.EntryOr0(d, r.user, W.WithdrawKey(i)) - WP.EntryOr0(d, r.user, W.FeeKey(i));
        var refund := WP.EntryOr0(d, r.user, W.RefundKey(i));
        var expected := if r.status.Failed? then 0 else r.amount;
        if debit - refund != expected {
          issues := issues + [i];
        }
      }
      i := i + 1;
    }
  }

  /** In no reachable state does the daily check find anything to report. */
  lemma ReconciliationIsSilent(c: W.Config, s: W.State, acts: seq<W.Action>, i: W.RequestId)
    requires W.Initial(s) && i < |W.Run(c, s, acts).d.requests|
    ensures !Mismatched(W.Run(c, s, acts).d, i)
  {
    WP.WithdrawalAccounting(c, s, acts, i, 0);
  }
}
