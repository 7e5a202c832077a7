/**
 What each call on a trade task requires of the row and leaves in it, on the fields of the row alone, and
 what the next calls then find: when a failed send comes back, what a refusal, an expiry or a reopen means
 for the devices, and that commits meet rows fit for them however old their reads are.
 */
module TradeTaskLaws {
  import opened Common
  import OS = OrderStates
  import opened TradeTasks

  // ----- Progress reports -----

  /** The phases of a send, in the order of the protocol. */
  const PROTOCOL: seq<Phase> :=
    [PhaseAcked, TradePageOpened, OfferDrafted, ItemSelected, OfferSubmitted, ConfirmPending, OfferSent]

  /** `p` comes before `q` in the protocol, or is `q`. */
  predicate NotAfter(p: Phase, q: Phase) {
    exists i, j :: 0 <= i <= j < |PROTOCOL| && PROTOCOL[i] == p && PROTOCOL[j] == q
  }

  /** A phase other than OFFER_SENT may follow: none was reported, it is repeated, or the send goes on or fails. */
  predicate MayFollow(phase: Option<Phase>, reported: Phase) {
    || phase == None || phase == Some(reported)
    || (phase.value !in {OfferSent, OfferFailed} && (reported == OfferFailed || NotAfter(phase.value, reported)))
  }

  lemma ProtocolOrder(p: Phase, q: Phase)
    requires p != OfferFailed && q != OfferFailed
    ensures NotAfter(p, q) <==> PhaseIndex(p) <= PhaseIndex(q)
  {
    assert PROTOCOL[PhaseIndex(p)] == p && PROTOCOL[PhaseIndex(q)] == q;
    assert forall i :: 0 <= i < |PROTOCOL| ==> PhaseIndex(PROTOCOL[i]) == i;
  }

  lemma MovesExactly(phase: Option<Phase>, reported: Phase)
    ensures PhaseMoveAllowed(phase, reported) <==> MayFollow(phase, reported)
  {
    if phase.Some? && phase.value != OfferFailed && reported != OfferFailed {
      ProtocolOrder(phase.value, reported);
    }
  }

  /** The condition under which a report is taken up. */
  predicate Reportable(task: Task, keys: set<string>, req: Request)
    requires req.Report?
  {
    && req.key !in keys
    && (if req.reported == OfferSent then req.trusted
        else
          && (req.session != None ==> task.leaseDevice == req.session && req.leaseVersion == Some(task.leaseVersion))
          && task.status !in {Expired, Failed} && MayFollow(task.phase, req.reported))
  }

  lemma ReportIsAdmittedExactly(s: State, req: Request, now: Time)
    requires req.Report?
    ensures Admits(s.task, s.order, s.keys, req, now) <==> Reportable(s.task, s.keys, req)
  {
    MovesExactly(s.task.phase, req.reported);
  }

  /** A report commits exactly if its key is new and the row has the status, phase and version it read; a submit
      also needs the order waiting, and no cancellation holding it. */
  lemma ReportCommitsExactly(s: State, call: Call, at: Time)
    requires call in s.inFlight && call.req.Report?
    ensures Commits(s, call, at)
            <==> && call.req.key !in s.keys
                 && s.task.status == call.snap.status && s.task.phase == call.snap.phase
                 && s.task.leaseVersion == call.snap.leaseVersion
                 && (call.req.reported == OfferSubmitted ==> s.order == OS.WaitingTrade && s.cancel == Idle)
  {
  }

  /** The reported phase is in the row, the lease is renewed, the submit is timed, and the key is spent; a report
      that does not fail changes nothing else. */
  lemma ReportIsWritten(s: State, call: Call, at: Time)
    requires Commits(s, call, at) && call.req.Report? && call.req.reported != OfferFailed
    ensures var t := Step(s, Finish(call, at));
            && t.task == s.task.(phase := Some(call.req.reported), leaseUntil := Some(at + 120_000),
                                 status := if call.req.reported == OfferSent then Acked else s.task.status,
                                 sendStartedAt := if call.req.reported == OfferSubmitted then Some(at)
                                                  else s.task.sendStartedAt,
                                 lastErrorCode := if call.req.reported == OfferSent then None else call.req.reason)
            && t.keys == s.keys + {call.req.key} && t.order == s.order
  {
  }

  function Pow2(n: nat): nat {
    if n == 0 then 1 else 2 * Pow2(n - 1)
  }

  lemma {:induction false} Pow2Grows(n: nat)
    requires n >= 6
    ensures Pow2(n) >= 64
    decreases n
  {
    if n == 6 {
      assert Pow2(4) == 16;
    } else {
      Pow2Grows(n - 1);
    }
  }

  /** The pause before another attempt: one second doubled with each attempt, one minute at most. */
  function Pause(attempts: nat): int {
    if 1000 * Pow2(attempts) < 60_000 then 1000 * Pow2(attempts) else 60_000
  }

  lemma BackoffIsExponential(n: nat)
    ensures BackoffMs(n) == Pause(n)
  {
    if n >= 6 {
      Pow2Grows(n);
    } else {
      assert Pow2(0) == 1 && Pow2(1) == 2 && Pow2(2) == 4;
      assert Pow2(3) == 8;
      assert Pow2(4) == 16;
      assert Pow2(5) == 32;
    }
  }

  /** A send that may have reached Steam is not tried again, nor one that is out of attempts. */
  predicate WorthRetrying(task: Task, retryable: bool) {
    && retryable && task.sendStartedAt == None && task.attemptCount + 1 < task.maxAttempts
    && task.phase !in {Some(OfferSubmitted), Some(ConfirmPending), Some(OfferSent)}
  }

  /** The state after a call that nothing interrupts. */
  function Served(s: State, req: Request, now: Time, at: Time): State {
    Step(Step(s, Begin(req, now)), Finish(Call(req, s.task, now), at))
  }

  /**
   A failed send uses up an attempt. It comes back if it is worth retrying: to whoever asks while the order
   still waits, after the pause and before the task expires, once the lease is over or for its device at once.
   Otherwise it is failed for good.
   */
  lemma FailedSendComesBack(s: State, req: Request, now: Time, at: Time, device: DeviceId, later: Time)
    requires req.Report? && req.reported == OfferFailed && Reportable(s.task, s.keys, req)
    ensures var t := Served(s, req, now, at);
            && t.task.attemptCount == s.task.attemptCount + 1 && t.keys == s.keys + {req.key}
            && t.task.lastErrorCode == Some(if req.reason == None then "OFFER_SEND_FAILED" else req.reason.value)
            && t.task.leaseDevice == s.task.leaseDevice && t.task.leaseVersion == s.task.leaseVersion
            && (Admits(t.task, t.order, t.keys, Poll(device), later)
                <==> && WorthRetrying(s.task, req.retryable) && s.order == OS.WaitingTrade
                     && at + Pause(s.task.attemptCount + 1) <= later < s.task.expiresAt
                     && (s.task.leaseDevice == Some(device) || at + 120_000 <= later))
            && (!WorthRetrying(s.task, req.retryable) ==> t.task.status == Failed && t.task.phase == Some(OfferFailed))
  {
    ReportIsAdmittedExactly(s, req, now);
    BackoffIsExponential(s.task.attemptCount + 1);
    PollIsAdmittedExactly(Served(s, req, now, at), device, later);
  }

  lemma {:induction false} KeysAreKept(s: State, acts: seq<Action>)
    ensures s.keys <= Run(s, acts).keys
    decreases |acts|
  {
    if acts != [] {
      KeysAreKept(Step(s, acts[0]), acts[1..]);
    }
  }

  /** An event key takes effect once: after its report committed, no report under that key ever does again. */
  lemma EventKeyIsSpentOnce(s: State, call: Call, at: Time, after: seq<Action>, other: Call, when: Time)
    requires Commits(s, call, at) && call.req.Report? && other.req.Report? && other.req.key == call.req.key
    ensures !Commits(Run(Step(s, Finish(call, at)), after), other, when)
  {
    KeysAreKept(Step(s, Finish(call, at)), after);
  }

  // ----- Acknowledgements, refusals, reopens and sweeps -----

  /** Which rows the other calls take up. */
  predicate TakenUp(task: Task, order: OS.OrderStatus, req: Request, now: Time) {
    var unsent := task.sendStartedAt == None && order == OS.WaitingTrade;
    match req
    case Ack => task.status in {Created, Dispatched}
    case Nack(_) => true
    case ReopenFailed(limit) =>
      unsent && task.status == Failed && task.attemptCount < limit
      && task.lastErrorCode in {Some("OFFER_SEND_FAILED"), Some("INVENTORY_NOT_LOADED"), Some("INVENTORY_PRIVATE"),
                                Some("INVENTORY_RATE_LIMITED"), Some("STEAM_COOKIE_EXPIRED"),
                                Some("STEAM_UNAVAILABLE"), Some("STALE_ORDER_SUPERSEDED")}
    case ReopenExpired(_) =>
      unsent && task.status == Expired && task.attemptCount < task.maxAttempts
      && task.lastErrorCode == Some("TASK_TTL_EXPIRED")
      && task.phase !in {Some(ItemSelected), Some(OfferSubmitted), Some(ConfirmPending), Some(OfferSent)}
    case Expire => task.status in {Created, Dispatched} && task.expiresAt <= now
    case FailOver(limit) => task.status == Dispatched && limit <= task.attemptCount
    case _ => false
  }

  /** The other calls are admitted exactly on those rows, and commit exactly if the row is still as they read it:
      in status, attempts and no send for a reopen, in all they compare for a sweep, always for the answers. */
  lemma OthersTakeEffectExactly(s: State, req: Request, now: Time, call: Call, at: Time)
    requires !req.Poll? && !req.Report? && call in s.inFlight && call.req == req
    ensures Admits(s.task, s.order, s.keys, req, now) <==> TakenUp(s.task, s.order, req, now)
    ensures Commits(s, call, at)
            <==> match req
                 case ReopenFailed(_) =>
                   s.task.sendStartedAt == None && s.task.status == call.snap.status
                   && s.task.attemptCount == call.snap.attemptCount
                 case ReopenExpired(_) =>
                   s.task.sendStartedAt == None && s.task.status == call.snap.status
                   && s.task.attemptCount == call.snap.attemptCount
                 case Expire => StillAsRead(s.task, call.snap)
                 case FailOver(_) => StillAsRead(s.task, call.snap)
                 case _ => true
  {
    var task := s.task;
    assert task.phase.Some? ==> task.phase == Some(task.phase.value);
    assert task.lastErrorCode.Some? ==> task.lastErrorCode == Some(task.lastErrorCode.value);
  }

  /** An acknowledged task is out of the devices' reach: no poll, reopen, expiry or fail-over takes it up. */
  lemma AckedTaskIsTaken(s: State, now: Time, at: Time, req: Request, later: Time)
    requires s.task.status in {Created, Dispatched}
    ensures var t := Served(s, Ack, now, at);
            && t.task == s.task.(status := Acked, phase := Some(PhaseAcked), lastErrorCode := None)
            && (Admits(t.task, t.order, t.keys, req, later) ==> req.Report? || req.Nack?)
  {
  }

  /** A refused task is not handed out again by a poll, even while attempts are left. */
  lemma RefusedTaskIsNotPolled(s: State, code: string, now: Time, at: Time, device: DeviceId, later: Time)
    ensures var t := Served(s, Nack(code), now, at);
            && t.task == s.task.(status := if s.task.attemptCount < s.task.maxAttempts then Dispatched else Failed,
                                 phase := Some(OfferFailed), lastErrorCode := Some(code),
                                 nextAttemptAt := if s.task.attemptCount < s.task.maxAttempts
                                                  then Some(at + Pause(s.task.attemptCount + 1)) else None)
            && !Admits(t.task, t.order, t.keys, Poll(device), later)
  {
    BackoffIsExponential(s.task.attemptCount + 1);
  }

  /** A reopen that commits costs an attempt and ends the lease: any device gets the task at once, while it lasts. */
  lemma ReopenedTaskIsFree(s: State, call: Call, at: Time, device: DeviceId, later: Time)
    requires Commits(s, call, at) && (call.req.ReopenFailed? || call.req.ReopenExpired?)
    ensures var t := Step(s, Finish(call, at));
            && t.task == s.task.(status := Dispatched, phase := None, leaseUntil := None, nextAttemptAt := Some(at),
                                 attemptCount := s.task.attemptCount + 1,
                                 lastErrorCode := if call.req.ReopenExpired? then None else s.task.lastErrorCode,
                                 expiresAt := if call.req.ReopenExpired? then at + call.req.ttl else s.task.expiresAt)
            && (Admits(t.task, t.order, t.keys, Poll(device), later)
                <==> s.order == OS.WaitingTrade && at <= later < t.task.expiresAt)
  {
    PollIsAdmittedExactly(Step(s, Finish(call, at)), device, later);
  }

  /** An expired task comes back only through the reopen of expired tasks, and only if it was safe and has attempts. */
  lemma ExpiredTaskWaitsForReopen(s: State, call: Call, at: Time, req: Request, later: Time)
    requires Commits(s, call, at) && call.req == Expire
    requires req.Poll? || req.ReopenFailed? || req.ReopenExpired?
    ensures var t := Step(s, Finish(call, at));
            && t.task == s.task.(status := Expired, lastErrorCode := Some("TASK_TTL_EXPIRED"))
            && (Admits(t.task, t.order, t.keys, req, later)
                <==> && req.ReopenExpired? && s.order == OS.WaitingTrade && s.task.sendStartedAt == None
                     && s.task.attemptCount < s.task.maxAttempts
                     && s.task.phase !in {Some(ItemSelected), Some(OfferSubmitted), Some(ConfirmPending), Some(OfferSent)})
  {
    assert s.task.phase.Some? ==> s.task.phase == Some(s.task.phase.value);
  }

  /** A task failed over comes back only through the reopen of failed tasks, for an error that passes and below
      that reopen's limit. */
  lemma FailedOverTaskWaitsForReopen(s: State, call: Call, at: Time, req: Request, later: Time)
    requires Commits(s, call, at) && call.req.FailOver?
    requires req.Poll? || req.ReopenFailed? || req.ReopenExpired?
    ensures var t := Step(s, Finish(call, at));
            var code := if call.snap.lastErrorCode == None then "MAX_ATTEMPTS_REACHED" else call.snap.lastErrorCode.value;
            && t.task == s.task.(status := Failed, phase := Some(OfferFailed), nextAttemptAt := None,
                                 lastErrorCode := Some(code))
            && (Admits(t.task, t.order, t.keys, req, later)
                <==> && req.ReopenFailed? && s.order == OS.WaitingTrade && s.task.sendStartedAt == None
                     && s.task.attemptCount < req.limit
                     && code in {"OFFER_SEND_FAILED", "INVENTORY_NOT_LOADED", "INVENTORY_PRIVATE",
                                 "INVENTORY_RATE_LIMITED", "STEAM_COOKIE_EXPIRED", "STEAM_UNAVAILABLE",
                                 "STALE_ORDER_SUPERSEDED"})
  {
  }

  // ----- Commits meet rows fit for them -----

  ghost predicate WasAdmitted(c: Call) {
    exists order: OS.OrderStatus, keys: set<string> :: Admits(c.snap, order, keys, c.req, c.readAt)
  }

  ghost predicate ReadsAdmitted(s: State) {
    forall c :: c in s.inFlight ==> WasAdmitted(c) && c.snap.maxAttempts == s.task.maxAttempts
  }

  lemma LimitStays(s: State, a: Action)
    ensures Step(s, a).task.maxAttempts == s.task.maxAttempts
  {
    if a.Finish? && Commits(s, a.call, a.at) {
      match a.call.req
      case Report(_, _, _, _, _, _, _) =>
      case _ =>
    }
  }

  lemma CallsAreOldOrAdmitted(s: State, a: Action, c: Call)
    requires c in Step(s, a).inFlight
    ensures c in s.inFlight || (c.snap == s.task && Admits(c.snap, s.order, s.keys, c.req, c.readAt))
  {
  }

  lemma StepKeepsReads(s: State, a: Action)
    requires ReadsAdmitted(s)
    ensures ReadsAdmitted(Step(s, a))
  {
    var t := Step(s, a);
    LimitStays(s, a);
    forall c | c in t.inFlight ensures WasAdmitted(c) && c.snap.maxAttempts == t.task.maxAttempts {
      CallsAreOldOrAdmitted(s, a, c);
    }
  }

  lemma {:induction false} RunKeepsReads(s: State, acts: seq<Action>)
    requires ReadsAdmitted(s)
    ensures ReadsAdmitted(Run(s, acts))
    decreases |acts|
  {
    if acts != [] {
      StepKeepsReads(s, acts[0]);
      RunKeepsReads(Step(s, acts[0]), acts[1..]);
    }
  }

  /** What the row is like that a commit of the call meets. */
  predicate FitFor(call: Call, row: Task, order: OS.OrderStatus) {
    match call.req
    case Poll(device) =>
      && row.status in {Created, Dispatched} && row.sendStartedAt == None && call.readAt < row.expiresAt
      && row.phase in {None, Some(PhaseAcked), Some(TradePageOpened), Some(OfferDrafted)}
      && order == OS.WaitingTrade && !HeldByOther(row, device, call.readAt)
    case Report(_, _, reported, _, _, _, trusted) =>
      if reported == OfferSent then trusted
      else row.status !in {Expired, Failed} && MayFollow(row.phase, reported)
    case ReopenFailed(limit) => row.status == Failed && row.sendStartedAt == None && row.attemptCount < limit
    case ReopenExpired(_) => row.status == Expired && row.sendStartedAt == None && row.attemptCount < row.maxAttempts
    case Expire => row.status in {Created, Dispatched} && row.expiresAt <= call.readAt
    case FailOver(limit) => row.status == Dispatched && row.attemptCount >= limit
    case _ => true
  }

  /** In every run, with any number of other calls between a read and its commit, a poll, report, reopen, expiry or
      fail-over takes effect only on a row that is fit for it when it does. */
  lemma CommitsMeetFitRows(start: State, acts: seq<Action>, call: Call, at: Time)
    requires Initial(start) && Commits(Run(start, acts), call, at)
    ensures FitFor(call, Run(start, acts).task, Run(start, acts).order)
  {
    RunKeepsReads(start, acts);
    var s := Run(start, acts);
    assert WasAdmitted(call) && call.snap.maxAttempts == s.task.maxAttempts;
    CommittedOnFitRow(s, call, at);
  }

  lemma CommittedOnFitRow(s: State, call: Call, at: Time)
    requires Commits(s, call, at) && WasAdmitted(call) && call.snap.maxAttempts == s.task.maxAttempts
    ensures FitFor(call, s.task, s.order)
  {
    var order, keys :| Admits(call.snap, order, keys, call.req, call.readAt);
    match call.req
    case Report(_, _, reported, _, _, _, _) => MovesExactly(call.snap.phase, reported);
    case Poll(device) => assert s.task.phase.Some? ==> s.task.phase == Some(s.task.phase.value);
    case _ =>
  }

  // ----- The sweeps and their answers -----

  /** An expired row that the reopen loop leaves alone. */
  predicate PassedOver(row: Task) {
    || row.attemptCount >= row.maxAttempts
    || row.phase in {Some(ItemSelected), Some(OfferSubmitted), Some(ConfirmPending), Some(OfferSent)}
  }

  predicate StillAsRead(row: Task, snap: Task) {
    (row.status, row.phase, row.leaseVersion, row.attemptCount, row.expiresAt, row.sendStartedAt)
    == (snap.status, snap.phase, snap.leaseVersion, snap.attemptCount, snap.expiresAt, snap.sendStartedAt)
  }

  lemma PassedOverExactly(row: Task, ttl: int)
    ensures Skipped(ReopenExpired(ttl), row) <==> PassedOver(row)
  {
    assert row.phase.Some? ==> row.phase == Some(row.phase.value);
  }

  function Reopened(row: Task, ttl: int, now: Time): Task {
    row.(status := Dispatched, phase := None, leaseUntil := None, attemptCount := row.attemptCount + 1,
         lastErrorCode := None, nextAttemptAt := Some(now), expiresAt := now + ttl)
  }

  predicate ReopensAgain(row: Task, snap: Task) {
    && !PassedOver(snap) && row.sendStartedAt == None
    && row.status == snap.status && row.attemptCount == snap.attemptCount
  }

  lemma RowReopens(row: Task, order: OS.OrderStatus, snap: Task, ttl: int, now: Time)
    ensures Written(row, order, ReopenExpired(ttl), snap, now)
            == if ReopensAgain(row, snap) then Reopened(row, ttl, now) else row
  {
    PassedOverExactly(snap, ttl);
  }

  /** The reopen loop brings back every row that may come back and whose status and count it read, unless it was sent. */
  lemma SweepReopensExpired(tasks: map<TaskId, Task>, orders: map<TaskId, OS.OrderStatus>, found: seq<Found>, k: nat,
                            ttl: int, now: Time)
    requires tasks.Keys == orders.Keys && forall f :: f in found ==> f.id in tasks
    requires DistinctIds(found) && k < |found|
    ensures var row := tasks[found[k].id];
            Sweep(tasks, orders, found, |found|, ReopenExpired(ttl), now)[found[k].id]
            == if ReopensAgain(row, found[k].row) then Reopened(row, ttl, now) else row
  {
    var f := found[k];
    SweepWrites(tasks, orders, found, |found|, ReopenExpired(ttl), now, k);
    RowReopens(tasks[f.id], orders[f.id], f.row, ttl, now);
  }

  ghost function TriedPlaces(found: seq<Found>, n: nat): set<nat>
    requires n <= |found|
  {
    set k: nat | k < n && !PassedOver(found[k].row)
  }

  /** The reopen loop answers with the number of rows it did not pass over, whether or not they came back. */
  lemma {:induction false} TriedAreCounted(found: seq<Found>, n: nat, ttl: int)
    requires n <= |found|
    ensures Tried(found, n, ReopenExpired(ttl)) == |TriedPlaces(found, n)|
  {
    if n > 0 {
      TriedAreCounted(found, n - 1, ttl);
      PassedOverExactly(found[n - 1].row, ttl);
      var before, last := TriedPlaces(found, n - 1), n - 1;
      assert last !in before;
      if PassedOver(found[last].row) {
        assert TriedPlaces(found, n) == before;
      } else {
        assert TriedPlaces(found, n) == before + {last};
      }
    }
  }

  ghost function UnchangedPlaces(tasks: map<TaskId, Task>, found: seq<Found>, n: nat): set<nat>
    requires n <= |found| && forall f :: f in found ==> f.id in tasks
  {
    set k: nat | k < n && StillAsRead(tasks[found[k].id], found[k].row)
  }

  lemma CountsOne(tasks: map<TaskId, Task>, orders: map<TaskId, OS.OrderStatus>, found: seq<Found>, last: nat,
                  req: Request, now: Time)
    requires last < |found| && tasks.Keys == orders.Keys && forall f :: f in found ==> f.id in tasks
    requires DistinctIds(found)
    ensures Unchanged(tasks, orders, found, last + 1, req, now)
            == Unchanged(tasks, orders, found, last, req, now)
               + if StillAsRead(tasks[found[last].id], found[last].row) then 1 else 0
  {
    SweepSparesOthers(tasks, orders, found, last, req, now, found[last].id);
  }

  lemma PlacesGrow(tasks: map<TaskId, Task>, found: seq<Found>, last: nat)
    requires last < |found| && forall f :: f in found ==> f.id in tasks
    ensures |UnchangedPlaces(tasks, found, last + 1)|
            == |UnchangedPlaces(tasks, found, last)| + if StillAsRead(tasks[found[last].id], found[last].row) then 1 else 0
  {
    var before := UnchangedPlaces(tasks, found, last);
    assert last !in before;
    if StillAsRead(tasks[found[last].id], found[last].row) {
      assert UnchangedPlaces(tasks, found, last + 1) == before + {last};
    } else {
      assert UnchangedPlaces(tasks, found, last + 1) == before;
    }
  }

  /** The other loops answer with the number of rows that are still as they were read. */
  lemma {:induction false} UnchangedAreCounted(tasks: map<TaskId, Task>, orders: map<TaskId, OS.OrderStatus>,
                                               found: seq<Found>, n: nat, req: Request, now: Time)
    requires n <= |found| && tasks.Keys == orders.Keys && forall f :: f in found ==> f.id in tasks
    requires DistinctIds(found)
    ensures Unchanged(tasks, orders, found, n, req, now) == |UnchangedPlaces(tasks, found, n)|
  {
    if n > 0 {
      UnchangedAreCounted(tasks, orders, found, n - 1, req, now);
      CountsOne(tasks, orders, found, n - 1, req, now);
      PlacesGrow(tasks, found, n - 1);
    }
  }

  // ----- Cancellation -----

  /** Whatever else moves the order does so along its table, not while a cancellation holds the row, and never to
      CANCELED; a cancellation takes hold of waiting orders only, and may give up at any time. */
  lemma OrderMovesExactly(s: State, to: OS.OrderStatus)
    ensures Step(s, MoveOrder(to))
            == if s.cancel == Idle && s.order in OS.CameFrom(to) && to != OS.Canceled then s.(order := to) else s
    ensures Step(s, CancelLock) == if s.cancel == Idle && s.order == OS.WaitingTrade then s.(cancel := Locked) else s
    ensures Step(s, CancelAbort) == s.(cancel := Idle)
  {
    OS.MovesGoForward(s.order, to);
  }

  /** A cancellation that nothing interrupts goes through exactly if the order waits and nothing of the send has
      begun: no offer, no send time, no dispatched or acknowledged task, no selected item. */
  lemma CancellationGoesThroughExactly(s: State, offerLinked: bool)
    requires s.cancel == Idle && s.order != OS.Canceled
    ensures Run(s, [CancelLock, CancelCheck(offerLinked), CancelCommit]).order == OS.Canceled
            <==> && s.order == OS.WaitingTrade && !offerLinked && s.task.sendStartedAt == None
                 && s.task.status !in {Dispatched, Acked}
                 && s.task.phase !in {Some(ItemSelected), Some(OfferSubmitted), Some(ConfirmPending), Some(OfferSent)}
  {
    var acts := [CancelLock, CancelCheck(offerLinked), CancelCommit];
    assert acts[1..] == [CancelCheck(offerLinked), CancelCommit];
    assert acts[1..][1..] == [CancelCommit];
    var last := Step(Step(s, acts[0]), acts[1]);
    assert Run(last, [CancelCommit]) == Step(last, CancelCommit);
    assert Run(s, acts) == Step(last, CancelCommit);
    assert s.task.phase.Some? ==> s.task.phase == Some(s.task.phase.value);
  }
}
