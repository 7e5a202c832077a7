/**
 The trade-task lease protocol of extension-trade-task.service.ts, together with the order
 cancellation it races with (orders.service.ts).

 Every service call reads the task row first and commits later with a conditional update. A call
 that has read its row is kept in flight with the row it saw, and any other call may run before it
 commits. Clocks are arbitrary: no property below needs them to be monotone.
 */
module TradeTasks {
  import opened Common
  import OS = OrderStates

  type DeviceId = string
  type TaskId = string
  type Time = int

  const LEASE_MS: int := 120_000

  datatype TaskStatus = Created | Dispatched | Acked | Failed | Expired

  datatype Phase =
    | PhaseAcked | TradePageOpened | OfferDrafted | ItemSelected
    | OfferSubmitted | ConfirmPending | OfferSent | OfferFailed

  datatype Task = Task(
    status: TaskStatus,
    phase: Option<Phase>,
    leaseDevice: Option<DeviceId>,
    leaseUntil: Option<Time>,
    leaseVersion: nat,
    sendStartedAt: Option<Time>,
    attemptCount: nat,
    maxAttempts: nat,
    expiresAt: Time,
    nextAttemptAt: Option<Time>,
    lastErrorCode: Option<string>)

  /** A service call as the caller makes it; `Report.session` is the device of the session, if any. */
  datatype Request =
    | Poll(device: DeviceId)
    | Report(session: Option<DeviceId>, leaseVersion: Option<nat>, reported: Phase, key: string,
             reason: Option<string>, retryable: bool, trusted: bool)
    | Ack
    | Nack(code: string)
    | ReopenFailed(limit: nat)
    | ReopenExpired(ttl: int)
    | Expire
    | FailOver(limit: nat)

  /** A call between its read and its commit. */
  datatype Call = Call(req: Request, snap: Task, readAt: Time)

  /** Progress of a cancellation, which holds the order row lock from Locked to its end. */
  datatype CancelTx = Idle | Locked | Checked

  const REOPENABLE_ERRORS: set<string> := {
    "OFFER_SEND_FAILED", "INVENTORY_NOT_LOADED", "INVENTORY_PRIVATE", "INVENTORY_RATE_LIMITED",
    "STEAM_COOKIE_EXPIRED", "STEAM_UNAVAILABLE", "STALE_ORDER_SUPERSEDED"
  }

  // ----- Decisions made on the row that was read -----

  function PhaseIndex(p: Phase): nat {
    match p
    case PhaseAcked => 0
    case TradePageOpened => 1
    case OfferDrafted => 2
    case ItemSelected => 3
    case OfferSubmitted => 4
    case ConfirmPending => 5
    case OfferSent => 6
    case OfferFailed => 7
  }

  predicate TerminalPhase(p: Phase) {
    p.OfferSent? || p.OfferFailed?
  }

  /** ensurePhaseTransition: does a report move the phase legally? */
  predicate PhaseMoveAllowed(current: Option<Phase>, next: Phase) {
    current.None? || current.value == next
    || (!TerminalPhase(current.value)
        && (next.OfferFailed? || PhaseIndex(current.value) <= PhaseIndex(next)))
  }

  predicate LeaseFree(task: Task, device: DeviceId, now: Time) {
    task.leaseUntil.None? || task.leaseUntil.value <= now || task.leaseDevice == Some(device)
  }

  predicate PollEligible(task: Task, order: OS.OrderStatus, device: DeviceId, now: Time) {
    && order == OS.WaitingTrade
    && (task.status.Created? || task.status.Dispatched?)
    && (task.phase.None? || task.phase.value in {PhaseAcked, TradePageOpened, OfferDrafted})
    && task.expiresAt > now
    && task.sendStartedAt.None?
    && LeaseFree(task, device, now)
    && (task.nextAttemptAt.None? || task.nextAttemptAt.value <= now)
  }

  predicate ReportAllowed(task: Task, keys: set<string>, req: Request)
    requires req.Report?
  {
    && (req.session.Some? && !req.reported.OfferSent? ==>
          task.leaseDevice == req.session && req.leaseVersion == Some(task.leaseVersion))
    && req.key !in keys
    && (task.status.Expired? || task.status.Failed? ==> req.reported.OfferSent?)
    && (task.phase.Some? && TerminalPhase(task.phase.value) && task.phase.value != req.reported
        ==> req.reported.OfferSent?)
    && (req.reported.OfferSent? || PhaseMoveAllowed(task.phase, req.reported))
    && (req.reported.OfferSent? ==> req.trusted)
  }

  /** The checks a call makes on the row it reads; `keys` are the event keys stored for the task. */
  predicate Admits(task: Task, order: OS.OrderStatus, keys: set<string>, req: Request, now: Time) {
    match req
    case Poll(device) => PollEligible(task, order, device, now)
    case Report(_, _, _, _, _, _, _) => ReportAllowed(task, keys, req)
    case Ack => task.status.Created? || task.status.Dispatched?
    case Nack(_) => true
    case ReopenFailed(limit) =>
      && task.sendStartedAt.None? && task.status.Failed? && order == OS.WaitingTrade
      && task.attemptCount < limit
      && task.lastErrorCode.Some? && task.lastErrorCode.value in REOPENABLE_ERRORS
    case ReopenExpired(_) =>
      && task.sendStartedAt.None? && task.status.Expired? && order == OS.WaitingTrade
      && task.lastErrorCode == Some("TASK_TTL_EXPIRED")
      && task.attemptCount < task.maxAttempts
      && (task.phase.None?
          || task.phase.value !in {ItemSelected, OfferSubmitted, ConfirmPending, OfferSent})
    case Expire => (task.status.Created? || task.status.Dispatched?) && task.expiresAt <= now
    case FailOver(limit) => task.status.Dispatched? && task.attemptCount >= limit
  }

  // ----- Conditional commits -----

  /** min(60 000, 1000 * 2^retries) */
  function BackoffMs(retries: nat): int {
    if retries >= 6 then 60_000 else 1000 * [1, 2, 4, 8, 16, 32][retries]
  }

  predicate Renews(snap: Task, device: DeviceId, now: Time) {
    snap.leaseDevice == Some(device) && snap.leaseUntil.Some? && snap.leaseUntil.value > now
  }

  function CommitPoll(task: Task, order: OS.OrderStatus, device: DeviceId, snap: Task, readAt: Time)
    : Option<Task>
  {
    if && order == OS.WaitingTrade && task.expiresAt > readAt
       && task.status == snap.status && task.phase == snap.phase && task.sendStartedAt.None?
       && task.leaseVersion == snap.leaseVersion && LeaseFree(task, device, readAt)
    then Some(task.(status := Dispatched,
                    leaseDevice := Some(device),
                    leaseUntil := Some(readAt + LEASE_MS),
                    leaseVersion := if Renews(snap, device, readAt) then snap.leaseVersion
                                    else snap.leaseVersion + 1))
    else None
  }

  predicate CanRetry(snap: Task, req: Request)
    requires req.Report?
  {
    && snap.sendStartedAt.None?
    && snap.attemptCount + 1 < snap.maxAttempts
    && req.retryable
    && (snap.phase.None? || snap.phase.value !in {OfferSubmitted, ConfirmPending, OfferSent})
  }

  /** The phase write of a report, after its conditional update succeeded. */
  function ApplyPhase(task: Task, snap: Task, req: Request, now: Time): Task
    requires req.Report?
  {
    match req.reported
    case OfferSent =>
      task.(status := Acked, phase := Some(OfferSent), lastErrorCode := None)
    case OfferFailed =>
      var attempts := snap.attemptCount + 1;
      var retry := CanRetry(snap, req);
      task.(status := if retry then Dispatched else Failed,
            phase := if retry then None else Some(OfferFailed),
            attemptCount := attempts,
            lastErrorCode := Some(req.reason.GetOr("OFFER_SEND_FAILED")),
            nextAttemptAt := if retry then Some(now + BackoffMs(attempts)) else None)
    case _ =>
      task.(phase := Some(req.reported), lastErrorCode := req.reason)
  }

  function CommitReport(task: Task, order: OS.OrderStatus, keys: set<string>, req: Request,
                        snap: Task, now: Time): Option<Task>
    requires req.Report?
  {
    if && (req.reported.OfferSubmitted? ==> order == OS.WaitingTrade)
       && task.status == snap.status && task.phase == snap.phase
       && task.leaseVersion == snap.leaseVersion
       && req.key !in keys
    then
      var owned := task.(leaseUntil := Some(now + LEASE_MS),
                         sendStartedAt := if req.reported.OfferSubmitted? then Some(now)
                                          else task.sendStartedAt);
      Some(ApplyPhase(owned, snap, req, now))
    else None
  }

  function CommitNack(task: Task, snap: Task, code: string, now: Time): Task {
    var willFail := snap.attemptCount >= snap.maxAttempts;
    task.(status := if willFail then Failed else Dispatched,
          phase := Some(OfferFailed),
          lastErrorCode := Some(code),
          nextAttemptAt := if willFail then None else Some(now + BackoffMs(snap.attemptCount + 1)))
  }

  predicate SameAttempt(task: Task, snap: Task) {
    && task.status == snap.status && task.sendStartedAt.None?
    && task.attemptCount == snap.attemptCount
  }

  predicate SameRow(task: Task, snap: Task) {
    && task.status == snap.status && task.phase == snap.phase
    && task.leaseVersion == snap.leaseVersion && task.attemptCount == snap.attemptCount
    && task.expiresAt == snap.expiresAt && task.sendStartedAt == snap.sendStartedAt
  }

  function CommitReopenFailed(task: Task, snap: Task, now: Time): Option<Task> {
    if SameAttempt(task, snap)
    then Some(task.(status := Dispatched, phase := None, leaseUntil := None,
                    attemptCount := task.attemptCount + 1, nextAttemptAt := Some(now)))
    else None
  }

  function CommitReopenExpired(task: Task, snap: Task, ttl: int, now: Time): Option<Task> {
    if SameAttempt(task, snap)
    then Some(task.(status := Dispatched, phase := None, leaseUntil := None,
                    attemptCount := task.attemptCount + 1, lastErrorCode := None,
                    nextAttemptAt := Some(now), expiresAt := now + ttl))
    else None
  }

  function CommitExpire(task: Task, snap: Task): Option<Task> {
    if SameRow(task, snap)
    then Some(task.(status := Expired, lastErrorCode := Some("TASK_TTL_EXPIRED")))
    else None
  }

  function CommitFailOver(task: Task, snap: Task): Option<Task> {
    if SameRow(task, snap)
    then Some(task.(status := Failed, phase := Some(OfferFailed), nextAttemptAt := None,
                    lastErrorCode := Some(snap.lastErrorCode.GetOr("MAX_ATTEMPTS_REACHED"))))
    else None
  }

  /** The write of a call against the row as it is now; None when the condition no longer holds. */
  function Commit(task: Task, order: OS.OrderStatus, keys: set<string>, call: Call, now: Time)
    : Option<Task>
  {
    match call.req
    case Poll(device) => CommitPoll(task, order, device, call.snap, call.readAt)
    case Report(_, _, _, _, _, _, _) => CommitReport(task, order, keys, call.req, call.snap, now)
    case Ack => Some(task.(status := Acked, phase := Some(PhaseAcked), lastErrorCode := None))
    case Nack(code) => Some(CommitNack(task, call.snap, code, now))
    case ReopenFailed(_) => CommitReopenFailed(task, call.snap, now)
    case ReopenExpired(ttl) => CommitReopenExpired(task, call.snap, ttl, now)
    case Expire => CommitExpire(task, call.snap)
    case FailOver(_) => CommitFailOver(task, call.snap)
  }

  // ----- One task, its order, and the calls in flight -----

  datatype State = State(
    task: Task,
    order: OS.OrderStatus,
    keys: set<string>,
    cancel: CancelTx,
    inFlight: multiset<Call>)

  datatype Action =
    | Begin(req: Request, now: Time)
    | Finish(call: Call, at: Time)
    | Drop(lost: Call)
    | CancelLock
    | CancelCheck(offerLinked: bool)
    | CancelCommit
    | CancelAbort
    | MoveOrder(to: OS.OrderStatus)

  /** The activeSend query of a cancellation. */
  predicate ActiveSend(task: Task) {
    || task.sendStartedAt.Some?
    || task.status.Dispatched? || task.status.Acked?
    || (task.phase.Some? && task.phase.value in {ItemSelected, OfferSubmitted, ConfirmPending, OfferSent})
  }

  predicate IsSubmit(req: Request) {
    req.Report? && req.reported.OfferSubmitted?
  }

  /** A submit report updates the order row, so it waits while a cancellation holds that row. */
  predicate WaitsForOrderLock(s: State, call: Call) {
    IsSubmit(call.req) && !s.cancel.Idle?
  }

  predicate Commits(s: State, call: Call, now: Time) {
    && call in s.inFlight && !WaitsForOrderLock(s, call)
    && Commit(s.task, s.order, s.keys, call, now).Some?
  }

  function FinishCall(s: State, call: Call, now: Time): State {
    if call !in s.inFlight || WaitsForOrderLock(s, call) then s
    else
      var rest := s.(inFlight := s.inFlight - multiset{call});
      match Commit(s.task, s.order, s.keys, call, now)
      case None => rest
      case Some(task) =>
        rest.(task := task, keys := if call.req.Report? then s.keys + {call.req.key} else s.keys)
  }

  function Step(s: State, a: Action): State {
    match a
    case Begin(req, now) =>
      if Admits(s.task, s.order, s.keys, req, now)
      then s.(inFlight := s.inFlight + multiset{Call(req, s.task, now)})
      else s
    case Finish(call, at) => FinishCall(s, call, at)
    case Drop(lost) => s.(inFlight := s.inFlight - multiset{lost})
    case CancelLock =>
      if s.cancel.Idle? && s.order == OS.WaitingTrade then s.(cancel := Locked) else s
    case CancelCheck(offerLinked) =>
      if s.cancel.Locked?
      then s.(cancel := if offerLinked || ActiveSend(s.task) then Idle else Checked)
      else s
    case CancelCommit =>
      if s.cancel.Checked? then s.(order := OS.Canceled, cancel := Idle) else s
    case CancelAbort => s.(cancel := Idle)
    case MoveOrder(to) =>
      if s.cancel.Idle? && to in OS.AllowedNext(s.order) && to != OS.Canceled
      then s.(order := to)
      else s
  }

  function Run(s: State, acts: seq<Action>): State
    decreases |acts|
  {
    if acts == [] then s else Run(Step(s, acts[0]), acts[1..])
  }

  /** The state in which order creation leaves the task. */
  predicate Initial(s: State) {
    && s.task.status.Created? && s.task.phase.None?
    && s.task.leaseDevice.None? && s.task.leaseUntil.None? && s.task.leaseVersion == 0
    && s.task.sendStartedAt.None? && s.task.attemptCount == 0
    && s.task.nextAttemptAt.None? && s.task.lastErrorCode.None?
    && s.order == OS.WaitingTrade && s.keys == {} && s.cancel.Idle? && s.inFlight == multiset{}
  }

  lemma {:induction false} RunConcat(s: State, xs: seq<Action>, ys: seq<Action>)
    ensures Run(s, xs + ys) == Run(Run(s, xs), ys)
    decreases |xs|
  {
    if xs == [] {
      assert xs + ys == ys;
    } else {
      assert (xs + ys)[1..] == xs[1..] + ys;
      RunConcat(Step(s, xs[0]), xs[1..], ys);
    }
  }

  // ----- The invariant -----

  /** `later` is not behind `earlier`, and an unchanged version still names the same device. */
  predicate LeaseGrows(earlier: Task, later: Task) {
    && earlier.leaseVersion <= later.leaseVersion
    && (earlier.leaseVersion == later.leaseVersion ==> earlier.leaseDevice == later.leaseDevice)
  }

  /** A session that reports anything but OFFER_SENT. */
  predicate Fenced(req: Request) {
    req.Report? && req.session.Some? && !req.reported.OfferSent?
  }

  predicate CallOk(task: Task, call: Call) {
    && LeaseGrows(call.snap, task)
    && (Fenced(call.req) ==>
          call.snap.leaseDevice == call.req.session
          && call.req.leaseVersion == Some(call.snap.leaseVersion))
  }

  ghost predicate Inv(s: State) {
    && (forall c :: c in s.inFlight ==> CallOk(s.task, c))
    && (s.cancel.Locked? ==> s.order == OS.WaitingTrade)
    && (s.cancel.Checked? ==> s.order == OS.WaitingTrade && s.task.sendStartedAt.None?)
    && (s.order == OS.Canceled ==> s.task.sendStartedAt.None?)
  }

  /** A commit keeps every version with its device, and only a submit on a waiting order starts a send. */
  lemma CommitKeepsLease(s: State, call: Call, now: Time)
    requires CallOk(s.task, call)
    requires Commit(s.task, s.order, s.keys, call, now).Some?
    ensures var t := Commit(s.task, s.order, s.keys, call, now).value;
            && LeaseGrows(s.task, t)
            && (s.task.sendStartedAt.Some? ==>
                  t.sendStartedAt.Some? && t.leaseVersion == s.task.leaseVersion)
            && (t.sendStartedAt.Some? && s.task.sendStartedAt.None? ==>
                  IsSubmit(call.req) && s.order == OS.WaitingTrade)
  {
    match call.req
    case Report(_, _, _, _, _, _, _) =>
      var t := Commit(s.task, s.order, s.keys, call, now).value;
      assert t.leaseVersion == s.task.leaseVersion && t.leaseDevice == s.task.leaseDevice;
    case _ =>
  }

  lemma CommitStepKeepsInv(s: State, call: Call, at: Time)
    requires Inv(s) && Commits(s, call, at)
    ensures var t := Step(s, Finish(call, at));
            && Inv(t) && LeaseGrows(s.task, t.task) && t.order == s.order
            && (s.task.sendStartedAt.Some? ==>
                  t.task.sendStartedAt.Some? && t.task.leaseVersion == s.task.leaseVersion)
  {
    CommitKeepsLease(s, call, at);
    var t := Step(s, Finish(call, at));
    forall c | c in t.inFlight ensures CallOk(t.task, c) {
      assert c in s.inFlight;
    }
  }

  lemma CallStepKeepsInv(s: State, a: Action)
    requires Inv(s) && (a.Begin? || a.Finish? || a.Drop?) && !(a.Finish? && Commits(s, a.call, a.at))
    ensures Inv(Step(s, a)) && Step(s, a).task == s.task && Step(s, a).order == s.order
  {
  }

  lemma OrderStepKeepsInv(s: State, a: Action)
    requires Inv(s) && !a.Begin? && !a.Finish? && !a.Drop?
    ensures Inv(Step(s, a)) && Step(s, a).task == s.task
    ensures s.order == OS.Canceled ==> Step(s, a).order == OS.Canceled
  {
  }

  lemma StepKeepsInv(s: State, a: Action)
    requires Inv(s)
    ensures Inv(Step(s, a))
    ensures LeaseGrows(s.task, Step(s, a).task)
    ensures s.task.sendStartedAt.Some? ==>
              Step(s, a).task.sendStartedAt.Some?
              && Step(s, a).task.leaseVersion == s.task.leaseVersion
    ensures s.order == OS.Canceled ==> Step(s, a).order == OS.Canceled
  {
    if a.Finish? && Commits(s, a.call, a.at) {
      CommitStepKeepsInv(s, a.call, a.at);
    } else if a.Begin? || a.Finish? || a.Drop? {
      CallStepKeepsInv(s, a);
    } else {
      OrderStepKeepsInv(s, a);
    }
  }

  lemma {:induction false} RunKeepsInv(s: State, acts: seq<Action>)
    requires Inv(s)
    ensures Inv(Run(s, acts))
    ensures LeaseGrows(s.task, Run(s, acts).task)
    ensures s.task.sendStartedAt.Some? ==>
              Run(s, acts).task.sendStartedAt.Some?
              && Run(s, acts).task.leaseVersion == s.task.leaseVersion
    ensures s.order == OS.Canceled ==> Run(s, acts).order == OS.Canceled
    decreases |acts|
  {
    if acts != [] {
      StepKeepsInv(s, acts[0]);
      RunKeepsInv(Step(s, acts[0]), acts[1..]);
    }
  }

  // ----- Main results -----

  /**
   Over one run, a lease version belongs to one device: two moments with the same version show the
   same device, and a later moment never shows a smaller version.
   */
  lemma LeaseVersionHasOneDevice(start: State, acts: seq<Action>, i: nat, j: nat)
    requires Initial(start) && i <= j <= |acts|
    ensures var a := Run(start, acts[..i]).task;
            var b := Run(start, acts[..j]).task;
            && a.leaseVersion <= b.leaseVersion
            && (a.leaseVersion == b.leaseVersion ==> a.leaseDevice == b.leaseDevice)
  {
    RunKeepsInv(start, acts[..i]);
    RunKeepsInv(Run(start, acts[..i]), acts[i..j]);
    RunConcat(start, acts[..i], acts[i..j]);
    assert acts[..i] + acts[i..j] == acts[..j];
  }

  /** A session report other than OFFER_SENT commits only for the device that holds the lease now. */
  lemma OnlyTheLeaseHolderCommits(start: State, acts: seq<Action>, call: Call, now: Time)
    requires Initial(start) && Fenced(call.req)
    requires Commits(Run(start, acts), call, now)
    ensures var task := Run(start, acts).task;
            task.leaseDevice == call.req.session && call.req.leaseVersion == Some(task.leaseVersion)
  {
    RunKeepsInv(start, acts);
    assert CallOk(Run(start, acts).task, call);
  }

  /** Once another device holds the lease, no report of the earlier version commits any more. */
  lemma SupersededDeviceNeverCommits(start: State, acts: seq<Action>, i: nat, call: Call, now: Time)
    requires Initial(start) && Fenced(call.req) && i <= |acts|
    requires call.req.leaseVersion.Some?
    requires call.req.leaseVersion.value < Run(start, acts[..i]).task.leaseVersion
             || (call.req.leaseVersion.value == Run(start, acts[..i]).task.leaseVersion
                 && call.req.session != Run(start, acts[..i]).task.leaseDevice)
    ensures !Commits(Run(start, acts), call, now)
  {
    assert acts[..|acts|] == acts;
    LeaseVersionHasOneDevice(start, acts, i, |acts|);
    if Commits(Run(start, acts), call, now) {
      OnlyTheLeaseHolderCommits(start, acts, call, now);
    }
  }

  predicate Redistributes(req: Request) {
    req.Poll? || req.ReopenFailed? || req.ReopenExpired?
  }

  /**
   Once a send has started it stays started with its lease frozen: no poll or reopen is admitted or
   commits, and every later session submit comes from the device that held the lease.
   */
  lemma SendFreezesTheLease(start: State, before: seq<Action>, after: seq<Action>)
    requires Initial(start)
    requires Run(start, before).task.sendStartedAt.Some?
    ensures var s := Run(start, before).task;
            var t := Run(start, before + after);
            && t.task.sendStartedAt.Some?
            && t.task.leaseVersion == s.leaseVersion && t.task.leaseDevice == s.leaseDevice
            && (forall req: Request, now: Time :: Redistributes(req) ==> !Admits(t.task, t.order, t.keys, req, now))
            && (forall call: Call, now: Time :: Redistributes(call.req) ==> !Commits(t, call, now))
            && (forall call: Call, now: Time :: IsSubmit(call.req) && call.req.session.Some? && Commits(t, call, now)
                  ==> call.req.session == s.leaseDevice)
  {
    RunConcat(start, before, after);
    RunKeepsInv(start, before);
    RunKeepsInv(Run(start, before), after);
    var t := Run(start, before + after);
    forall call: Call, now: Time | IsSubmit(call.req) && call.req.session.Some? && Commits(t, call, now)
      ensures call.req.session == t.task.leaseDevice
    {
      OnlyTheLeaseHolderCommits(start, before + after, call, now);
    }
  }

  /** A committed submit is what starts a send, and from then on the reporter's lease is the frozen one. */
  lemma SubmitStartsTheSend(start: State, acts: seq<Action>, call: Call, now: Time)
    requires Initial(start) && IsSubmit(call.req) && call.req.session.Some?
    requires Commits(Run(start, acts), call, now)
    ensures var t := Run(start, acts + [Finish(call, now)]).task;
            t.sendStartedAt == Some(now) && t.leaseDevice == call.req.session
  {
    OnlyTheLeaseHolderCommits(start, acts, call, now);
    RunConcat(start, acts, [Finish(call, now)]);
    var s := Run(start, acts);
    assert Run(s, [Finish(call, now)]) == Step(s, Finish(call, now));
  }

  /** Cancellation and sending exclude each other, now and in every continuation. */
  lemma CanceledOrderNeverSends(start: State, before: seq<Action>, after: seq<Action>)
    requires Initial(start)
    requires Run(start, before).order == OS.Canceled
    ensures Run(start, before).task.sendStartedAt.None?
    ensures Run(start, before + after).order == OS.Canceled
    ensures Run(start, before + after).task.sendStartedAt.None?
  {
    RunConcat(start, before, after);
    RunKeepsInv(start, before);
    RunKeepsInv(Run(start, before), after);
  }

  /** The other direction: an order whose send has started can no longer be canceled. */
  lemma SentOrderIsNeverCanceled(start: State, before: seq<Action>, after: seq<Action>)
    requires Initial(start)
    requires Run(start, before).task.sendStartedAt.Some?
    ensures Run(start, before + after).order != OS.Canceled
  {
    RunConcat(start, before, after);
    RunKeepsInv(start, before);
    RunKeepsInv(Run(start, before), after);
  }

  // ----- The service on its table -----

  /** A row found by an earlier query: its id, and the row as it was read. */
  datatype Found = Found(id: TaskId, row: Task)

  predicate DistinctIds(found: seq<Found>) {
    forall i, j :: 0 <= i < j < |found| ==> found[i].id != found[j].id
  }

  /** Rows the reopen loop passes over although its query returned them. */
  predicate Skipped(req: Request, snap: Task) {
    && req.ReopenExpired?
    && (snap.attemptCount >= snap.maxAttempts
        || (snap.phase.Some?
            && snap.phase.value in {ItemSelected, OfferSubmitted, ConfirmPending, OfferSent}))
  }

  /** What the conditional update of `req` leaves in a row. */
  function Written(row: Task, order: OS.OrderStatus, req: Request, snap: Task, now: Time): Task {
    if Skipped(req, snap) then row else Commit(row, order, {}, Call(req, snap, now), now).GetOr(row)
  }

  /** The table after the first `n` found rows went through the update of `req`, one after the other. */
  function Sweep(tasks: map<TaskId, Task>, orders: map<TaskId, OS.OrderStatus>, found: seq<Found>, n: nat,
                 req: Request, now: Time): (swept: map<TaskId, Task>)
    requires n <= |found| && tasks.Keys == orders.Keys && forall f :: f in found ==> f.id in tasks
    ensures swept.Keys == tasks.Keys
  {
    if n == 0 then tasks
    else
      var before := Sweep(tasks, orders, found, n - 1, req, now);
      var f := found[n - 1];
      before[f.id := Written(before[f.id], orders[f.id], req, f.row, now)]
  }

  lemma {:induction false} SweepSparesOthers(tasks: map<TaskId, Task>, orders: map<TaskId, OS.OrderStatus>,
                                             found: seq<Found>, n: nat, req: Request, now: Time, id: TaskId)
    requires n <= |found| && tasks.Keys == orders.Keys && forall f :: f in found ==> f.id in tasks
    requires id in tasks && forall k :: 0 <= k < n ==> found[k].id != id
    ensures Sweep(tasks, orders, found, n, req, now)[id] == tasks[id]
  {
    if n > 0 {
      SweepSparesOthers(tasks, orders, found, n - 1, req, now, id);
    }
  }

  lemma {:induction false} SweepWrites(tasks: map<TaskId, Task>, orders: map<TaskId, OS.OrderStatus>,
                                       found: seq<Found>, n: nat, req: Request, now: Time, k: nat)
    requires n <= |found| && tasks.Keys == orders.Keys && forall f :: f in found ==> f.id in tasks
    requires DistinctIds(found) && k < n
    ensures Sweep(tasks, orders, found, n, req, now)[found[k].id]
            == Written(tasks[found[k].id], orders[found[k].id], req, found[k].row, now)
  {
    if k == n - 1 {
      SweepSparesOthers(tasks, orders, found, n - 1, req, now, found[k].id);
    } else {
      SweepWrites(tasks, orders, found, n - 1, req, now, k);
      assert found[k].id != found[n - 1].id;
    }
  }

  /** A sweep writes every found row exactly once, from the row as it was, and no other row. */
  lemma SweepWritesEachRowOnce(tasks: map<TaskId, Task>, orders: map<TaskId, OS.OrderStatus>,
                               found: seq<Found>, n: nat, req: Request, now: Time, id: TaskId)
    requires n <= |found| && tasks.Keys == orders.Keys && forall f :: f in found ==> f.id in tasks
    requires DistinctIds(found) && id in tasks
    ensures (forall k :: 0 <= k < n ==> found[k].id != id)
            ==> Sweep(tasks, orders, found, n, req, now)[id] == tasks[id]
    ensures forall k :: 0 <= k < n && found[k].id == id ==>
              Sweep(tasks, orders, found, n, req, now)[id]
              == Written(tasks[id], orders[id], req, found[k].row, now)
  {
    if k :| 0 <= k < n && found[k].id == id {
      SweepWrites(tasks, orders, found, n, req, now, k);
      assert forall i :: 0 <= i < n && found[i].id == id ==> i == k;
    } else {
      SweepSparesOthers(tasks, orders, found, n, req, now, id);
    }
  }

  /** How many of the first `n` found rows are still as they were read when the sweep reaches them. */
  function Unchanged(tasks: map<TaskId, Task>, orders: map<TaskId, OS.OrderStatus>, found: seq<Found>, n: nat,
                     req: Request, now: Time): nat
    requires n <= |found| && tasks.Keys == orders.Keys && forall f :: f in found ==> f.id in tasks
  {
    if n == 0 then 0
    else
      var f := found[n - 1];
      Unchanged(tasks, orders, found, n - 1, req, now)
      + (if SameRow(Sweep(tasks, orders, found, n - 1, req, now)[f.id], f.row) then 1 else 0)
  }

  datatype Claim = Claim(id: TaskId, version: nat)

  /** The claims of a poll: the rows whose update went through, with the version each then carries. */
  function Claims(tasks: map<TaskId, Task>, orders: map<TaskId, OS.OrderStatus>, found: seq<Found>, n: nat,
                  device: DeviceId, now: Time): seq<Claim>
    requires n <= |found| && tasks.Keys == orders.Keys && forall f :: f in found ==> f.id in tasks
  {
    if n == 0 then []
    else
      var f := found[n - 1];
      var before := Sweep(tasks, orders, found, n - 1, Poll(device), now);
      var write := CommitPoll(before[f.id], orders[f.id], device, f.row, now);
      Claims(tasks, orders, found, n - 1, device, now)
      + (if write.Some? then [Claim(f.id, write.value.leaseVersion)] else [])
  }

  /** Every claim a poll hands out names a row that the device leases at that version when the poll ends. */
  lemma {:induction false} ClaimsAreLeased(tasks: map<TaskId, Task>, orders: map<TaskId, OS.OrderStatus>,
                                           found: seq<Found>, n: nat, device: DeviceId, now: Time, c: Claim)
    requires n <= |found| && tasks.Keys == orders.Keys && forall f :: f in found ==> f.id in tasks
    requires DistinctIds(found) && c in Claims(tasks, orders, found, n, device, now)
    ensures exists k :: 0 <= k < n && found[k].id == c.id
    ensures var row := Sweep(tasks, orders, found, n, Poll(device), now)[c.id];
            row.leaseVersion == c.version && row.leaseDevice == Some(device)
            && row.leaseUntil == Some(now + LEASE_MS)
  {
    var f := found[n - 1];
    if c in Claims(tasks, orders, found, n - 1, device, now) {
      ClaimsAreLeased(tasks, orders, found, n - 1, device, now, c);
      var k :| 0 <= k < n - 1 && found[k].id == c.id;
      assert found[k].id != found[n - 1].id;
    } else {
      assert found[n - 1].id == c.id;
    }
  }

  /** How many of the first `n` found rows the loop of `req` does not pass over. */
  function Tried(found: seq<Found>, n: nat, req: Request): nat
    requires n <= |found|
  {
    if n == 0 then 0
    else Tried(found, n - 1, req) + (if Skipped(req, found[n - 1].row) then 0 else 1)
  }

  // ----- Who may take a task, on the fields of its row -----

  /** Another device holds a lease that has not ended at `now`. */
  predicate HeldByOther(task: Task, device: DeviceId, now: Time) {
    task.leaseUntil.Some? && now < task.leaseUntil.value && task.leaseDevice != Some(device)
  }

  /** An unsent task of a waiting order, before its item is selected, that has neither expired nor to wait. */
  predicate Dispatchable(task: Task, order: OS.OrderStatus, now: Time) {
    && order == OS.WaitingTrade
    && (task.status == Created || task.status == Dispatched)
    && task.phase in {None, Some(PhaseAcked), Some(TradePageOpened), Some(OfferDrafted)}
    && task.sendStartedAt == None
    && now < task.expiresAt
    && (task.nextAttemptAt.Some? ==> task.nextAttemptAt.value <= now)
  }

  /** A task as the device that was granted a lease on it at `now` finds it. */
  function Granted(task: Task, device: DeviceId, now: Time): Task {
    var renewed := task.leaseDevice == Some(device) && task.leaseUntil.Some? && now < task.leaseUntil.value;
    task.(status := Dispatched, leaseDevice := Some(device), leaseUntil := Some(now + 120_000),
          leaseVersion := if renewed then task.leaseVersion else task.leaseVersion + 1)
  }

  predicate ToGrant(tasks: map<TaskId, Task>, orders: map<TaskId, OS.OrderStatus>, f: Found, device: DeviceId, now: Time) {
    && f.id in tasks && f.id in orders && tasks[f.id] == f.row
    && Dispatchable(f.row, orders[f.id], now) && !HeldByOther(f.row, device, now)
  }

  /** A poll is admitted exactly on dispatchable tasks that no other device holds. */
  lemma PollIsAdmittedExactly(s: State, device: DeviceId, now: Time)
    ensures Admits(s.task, s.order, s.keys, Poll(device), now)
            <==> Dispatchable(s.task, s.order, now) && !HeldByOther(s.task, device, now)
  {
    assert s.task.phase.None? ==> s.task.phase == None;
    assert s.task.phase.Some? ==> s.task.phase == Some(s.task.phase.value);
  }

  /** While another device's lease lasts, no poll read then is admitted, and none that was read then commits. */
  lemma LiveLeaseIsNeverTaken(s: State, device: DeviceId, now: Time, call: Call, at: Time)
    requires HeldByOther(s.task, device, now)
    ensures !Admits(s.task, s.order, s.keys, Poll(device), now)
    ensures call.req == Poll(device) && call.readAt == now ==> !Commits(s, call, at)
  {
    PollIsAdmittedExactly(s, device, now);
  }

  /** A dispatchable task that no other device holds is granted to the device that asks. */
  lemma FreeTaskIsGranted(s: State, device: DeviceId, now: Time, at: Time)
    requires Dispatchable(s.task, s.order, now) && !HeldByOther(s.task, device, now)
    ensures Step(Step(s, Begin(Poll(device), now)), Finish(Call(Poll(device), s.task, now), at)).task
            == Granted(s.task, device, now)
  {
    PollIsAdmittedExactly(s, device, now);
  }

  /** A poll that read a row earlier commits exactly if the row is as it read it and still free for its device. */
  lemma PollCommitsExactly(s: State, call: Call, device: DeviceId, at: Time)
    requires call in s.inFlight && call.req == Poll(device)
    ensures Commits(s, call, at)
            <==> && s.order == OS.WaitingTrade && call.readAt < s.task.expiresAt && s.task.sendStartedAt == None
                 && s.task.status == call.snap.status && s.task.phase == call.snap.phase
                 && s.task.leaseVersion == call.snap.leaseVersion
                 && !HeldByOther(s.task, device, call.readAt)
  {
  }

  /** No row under another device's live lease changes in a poll. */
  lemma {:induction false} PollSparesLiveLeases(tasks: map<TaskId, Task>, orders: map<TaskId, OS.OrderStatus>,
                                                found: seq<Found>, n: nat, device: DeviceId, now: Time, id: TaskId)
    requires n <= |found| && tasks.Keys == orders.Keys && forall f :: f in found ==> f.id in tasks
    requires id in tasks && HeldByOther(tasks[id], device, now)
    ensures Sweep(tasks, orders, found, n, Poll(device), now)[id] == tasks[id]
  {
    if n > 0 {
      PollSparesLiveLeases(tasks, orders, found, n - 1, device, now, id);
    }
  }

  lemma FreeRowIsGranted(task: Task, order: OS.OrderStatus, device: DeviceId, now: Time)
    requires Dispatchable(task, order, now) && !HeldByOther(task, device, now)
    ensures Written(task, order, Poll(device), task, now) == Granted(task, device, now)
    ensures CommitPoll(task, order, device, task, now) == Some(Granted(task, device, now))
  {
  }

  lemma {:induction false} ClaimsGrow(tasks: map<TaskId, Task>, orders: map<TaskId, OS.OrderStatus>, found: seq<Found>,
                                      n: nat, m: nat, device: DeviceId, now: Time)
    requires n <= m <= |found| && tasks.Keys == orders.Keys && forall f :: f in found ==> f.id in tasks
    ensures forall c :: c in Claims(tasks, orders, found, n, device, now) ==>
              c in Claims(tasks, orders, found, m, device, now)
    decreases m
  {
    if n < m {
      ClaimsGrow(tasks, orders, found, n, m - 1, device, now);
    }
  }

  lemma RowIsClaimedInTurn(tasks: map<TaskId, Task>, orders: map<TaskId, OS.OrderStatus>,
                           found: seq<Found>, k: nat, device: DeviceId, now: Time)
    requires tasks.Keys == orders.Keys && forall f :: f in found ==> f.id in tasks
    requires DistinctIds(found) && k < |found| && ToGrant(tasks, orders, found[k], device, now)
    ensures Claim(found[k].id, Granted(found[k].row, device, now).leaseVersion)
            in Claims(tasks, orders, found, k + 1, device, now)
  {
    var f := found[k];
    FreeRowIsGranted(f.row, orders[f.id], device, now);
    assert forall i :: 0 <= i < k ==> found[i].id != f.id;
    SweepSparesOthers(tasks, orders, found, k, Poll(device), now, f.id);
  }

  /** Every found row that is still as it was read, dispatchable and free is granted to the device and claimed. */
  lemma PollClaimsFreeTasks(tasks: map<TaskId, Task>, orders: map<TaskId, OS.OrderStatus>,
                            found: seq<Found>, k: nat, device: DeviceId, now: Time)
    requires tasks.Keys == orders.Keys && forall f :: f in found ==> f.id in tasks
    requires DistinctIds(found) && k < |found| && ToGrant(tasks, orders, found[k], device, now)
    ensures Sweep(tasks, orders, found, |found|, Poll(device), now)[found[k].id] == Granted(found[k].row, device, now)
    ensures Claim(found[k].id, Granted(found[k].row, device, now).leaseVersion)
            in Claims(tasks, orders, found, |found|, device, now)
  {
    var f := found[k];
    FreeRowIsGranted(f.row, orders[f.id], device, now);
    SweepWrites(tasks, orders, found, |found|, Poll(device), now, k);
    RowIsClaimedInTurn(tasks, orders, found, k, device, now);
    ClaimsGrow(tasks, orders, found, k + 1, |found|, device, now);
  }

  /** A claim leaves a row that another device holds, and grants one that is as it was read and free. */
  predicate Fair(row: Task, order: OS.OrderStatus, snap: Task, after: Task, version: Option<nat>, device: DeviceId,
                 now: Time) {
    && (HeldByOther(row, device, now) ==> version == None && after == row)
    && (row == snap && Dispatchable(row, order, now) && !HeldByOther(row, device, now) ==>
          after == Granted(row, device, now) && version == Some(after.leaseVersion))
  }

  /** No row under another device's live lease changes. */
  predicate SparesLeases(before: map<TaskId, Task>, after: map<TaskId, Task>, device: DeviceId, now: Time) {
    && before.Keys <= after.Keys
    && forall id :: id in before && HeldByOther(before[id], device, now) ==> after[id] == before[id]
  }

  /** Every found row that is still as it was read, dispatchable and free is granted to the device and claimed. */
  predicate GrantsFreeRows(before: map<TaskId, Task>, orders: map<TaskId, OS.OrderStatus>, found: seq<Found>,
                           after: map<TaskId, Task>, claimed: seq<Claim>, device: DeviceId, now: Time) {
    && before.Keys <= after.Keys
    && forall f :: f in found && ToGrant(before, orders, f, device, now) ==>
         after[f.id] == Granted(f.row, device, now) && Claim(f.id, after[f.id].leaseVersion) in claimed
  }

  /** A poll leaves what others hold and hands out all that is free. */
  lemma PollIsFair(tasks: map<TaskId, Task>, orders: map<TaskId, OS.OrderStatus>, found: seq<Found>,
                   device: DeviceId, now: Time)
    requires tasks.Keys == orders.Keys && forall f :: f in found ==> f.id in tasks
    ensures var swept := Sweep(tasks, orders, found, |found|, Poll(device), now);
            && SparesLeases(tasks, swept, device, now)
            && (DistinctIds(found) ==>
                  GrantsFreeRows(tasks, orders, found, swept, Claims(tasks, orders, found, |found|, device, now), device, now))
  {
    forall id | id in tasks && HeldByOther(tasks[id], device, now)
      ensures Sweep(tasks, orders, found, |found|, Poll(device), now)[id] == tasks[id]
    {
      PollSparesLiveLeases(tasks, orders, found, |found|, device, now, id);
    }
    forall k | DistinctIds(found) && 0 <= k < |found| && ToGrant(tasks, orders, found[k], device, now)
      ensures Sweep(tasks, orders, found, |found|, Poll(device), now)[found[k].id] == Granted(found[k].row, device, now)
      ensures Claim(found[k].id, Granted(found[k].row, device, now).leaseVersion)
              in Claims(tasks, orders, found, |found|, device, now)
    {
      PollClaimsFreeTasks(tasks, orders, found, k, device, now);
    }
  }

  class TradeTaskTable {
    var tasks: map<TaskId, Task>
    var orders: map<TaskId, OS.OrderStatus>
    var keys: map<TaskId, set<string>>

    ghost predicate Valid()
      reads this
    {
      tasks.Keys == orders.Keys == keys.Keys
    }

    constructor ()
      ensures Valid() && tasks == map[]
    {
      tasks, orders, keys := map[], map[], map[];
    }

    /** The conditional update of pollTasks on one row, with the version it reports to the device. */
    method ClaimRow(id: TaskId, snap: Task, device: DeviceId, now: Time) returns (version: Option<nat>)
      requires Valid() && id in tasks
      modifies this`tasks
      ensures tasks == old(tasks)[id := Written(old(tasks)[id], orders[id], Poll(device), snap, now)]
      ensures var write := CommitPoll(old(tasks)[id], orders[id], device, snap, now);
              version == if write.Some? then Some(write.value.leaseVersion) else None
      ensures Fair(old(tasks)[id], orders[id], snap, tasks[id], version, device, now)
    {
      var row := tasks[id];
      if !(&& orders[id] == OS.WaitingTrade && row.expiresAt > now
           && row.status == snap.status && row.phase == snap.phase && row.sendStartedAt.None?
           && row.leaseVersion == snap.leaseVersion && LeaseFree(row, device, now)) {
        assert tasks == tasks[id := row];
        return None;
      }
      var renew := Renews(snap, device, now);
      tasks := tasks[id := row.(
        status := Dispatched,
        leaseDevice := Some(device),
        leaseUntil := Some(now + LEASE_MS),
        leaseVersion := if renew then snap.leaseVersion else snap.leaseVersion + 1)];
      if snap.leaseDevice != Some(device) || snap.leaseUntil.None? || snap.leaseUntil.value <= now {
        return Some(snap.leaseVersion + 1);
      }
      return Some(snap.leaseVersion);
    }

    /** The claim loop of pollTasks over the rows its query returned: each row has its own update. */
    method PollTasks(device: DeviceId, now: Time, found: seq<Found>) returns (claimed: seq<Claim>)
      requires Valid() && forall f :: f in found ==> f.id in tasks
      modifies this`tasks
      ensures Valid() && tasks == Sweep(old(tasks), orders, found, |found|, Poll(device), now)
      ensures claimed == Claims(old(tasks), orders, found, |found|, device, now)
      ensures SparesLeases(old(tasks), tasks, device, now)
      ensures DistinctIds(found) ==> GrantsFreeRows(old(tasks), orders, found, tasks, claimed, device, now)
    {
      claimed := [];
      var n := 0;
      while n < |found|
        invariant n <= |found|
        invariant tasks == Sweep(old(tasks), orders, found, n, Poll(device), now)
        invariant claimed == Claims(old(tasks), orders, found, n, device, now)
      {
        var version := ClaimRow(found[n].id, found[n].row, device, now);
        if version.Some? {
          claimed := claimed + [Claim(found[n].id, version.value)];
        }
        n := n + 1;
      }
      PollIsFair(old(tasks), orders, found, device, now);
    }

    /** The loop of expireTasks: rows that are still as they were read expire, and are counted. */
    method ExpireTasks(now: Time, found: seq<Found>) returns (changed: nat)
      requires Valid() && forall f :: f in found ==> f.id in tasks
      modifies this`tasks
      ensures Valid() && tasks == Sweep(old(tasks), orders, found, |found|, Expire, now)
      ensures changed == Unchanged(old(tasks), orders, found, |found|, Expire, now)
    {
      changed := 0;
      var n := 0;
      while n < |found|
        invariant n <= |found|
        invariant tasks == Sweep(old(tasks), orders, found, n, Expire, now)
        invariant changed == Unchanged(old(tasks), orders, found, n, Expire, now)
      {
        var id := found[n].id;
        var row := tasks[id];
        if SameRow(row, found[n].row) {
          row := row.(status := Expired, lastErrorCode := Some("TASK_TTL_EXPIRED"));
          changed := changed + 1;
        }
        tasks := tasks[id := row];
        n := n + 1;
      }
    }

    /** The loop of failOverRetriedTasks: rows that are still as they were read fail for good. */
    method FailOverRetriedTasks(limit: nat, now: Time, found: seq<Found>) returns (changed: nat)
      requires Valid() && forall f :: f in found ==> f.id in tasks
      modifies this`tasks
      ensures Valid() && tasks == Sweep(old(tasks), orders, found, |found|, FailOver(limit), now)
      ensures changed == Unchanged(old(tasks), orders, found, |found|, FailOver(limit), now)
    {
      changed := 0;
      var n := 0;
      while n < |found|
        invariant n <= |found|
        invariant tasks == Sweep(old(tasks), orders, found, n, FailOver(limit), now)
        invariant changed == Unchanged(old(tasks), orders, found, n, FailOver(limit), now)
      {
        var id, snap := found[n].id, found[n].row;
        var row := tasks[id];
        if SameRow(row, snap) {
          row := row.(status := Failed, phase := Some(OfferFailed), nextAttemptAt := None,
                      lastErrorCode := Some(snap.lastErrorCode.GetOr("MAX_ATTEMPTS_REACHED")));
          changed := changed + 1;
        }
        tasks := tasks[id := row];
        n := n + 1;
      }
    }

    /** The loop of reopenFailedRetryableTasksForWaitingOrders; it counts the rows it tried. */
    method ReopenFailedTasks(limit: nat, now: Time, found: seq<Found>) returns (reopened: nat)
      requires Valid() && forall f :: f in found ==> f.id in tasks
      modifies this`tasks
      ensures Valid() && tasks == Sweep(old(tasks), orders, found, |found|, ReopenFailed(limit), now)
      ensures reopened == |found|
    {
      reopened := 0;
      while reopened < |found|
        invariant reopened <= |found|
        invariant tasks == Sweep(old(tasks), orders, found, reopened, ReopenFailed(limit), now)
      {
        var id, snap := found[reopened].id, found[reopened].row;
        var row := tasks[id];
        if SameAttempt(row, snap) {
          row := row.(status := Dispatched, phase := None, leaseUntil := None,
                      attemptCount := row.attemptCount + 1, nextAttemptAt := Some(now));
        }
        tasks := tasks[id := row];
        reopened := reopened + 1;
      }
    }

    /** The loop of reopenExpiredTasksForWaitingOrders; it counts the rows it tried. */
    method ReopenExpiredTasks(ttl: int, now: Time, found: seq<Found>) returns (reopened: nat)
      requires Valid() && forall f :: f in found ==> f.id in tasks
      modifies this`tasks
      ensures Valid() && tasks == Sweep(old(tasks), orders, found, |found|, ReopenExpired(ttl), now)
      ensures reopened == Tried(found, |found|, ReopenExpired(ttl))
    {
      reopened := 0;
      var n := 0;
      while n < |found|
        invariant n <= |found|
        invariant tasks == Sweep(old(tasks), orders, found, n, ReopenExpired(ttl), now)
        invariant reopened == Tried(found, n, ReopenExpired(ttl))
      {
        var id, snap := found[n].id, found[n].row;
        var row := tasks[id];
        if !Skipped(ReopenExpired(ttl), snap) {
          if SameAttempt(row, snap) {
            row := row.(status := Dispatched, phase := None, leaseUntil := None,
                        attemptCount := row.attemptCount + 1, lastErrorCode := None,
                        nextAttemptAt := Some(now), expiresAt := now + ttl);
          }
          reopened := reopened + 1;
        }
        tasks := tasks[id := row];
        n := n + 1;
      }
    }

    /** ackTask for a row that was read as `snap`: the update does not compare the row it meets. */
    method AckTask(id: TaskId, snap: Task) returns (ok: bool)
      requires Valid() && id in tasks
      modifies this`tasks
      ensures Valid()
      ensures ok <==> !snap.status.Expired? && !snap.status.Failed?
      ensures tasks == if snap.status.Created? || snap.status.Dispatched?
                       then old(tasks)[id := Written(old(tasks)[id], orders[id], Ack, snap, 0)]
                       else old(tasks)
    {
      if snap.status.Acked? {
        return true;
      }
      if snap.status.Expired? || snap.status.Failed? {
        return false;
      }
      tasks := tasks[id := tasks[id].(status := Acked, phase := Some(PhaseAcked), lastErrorCode := None)];
      ok := true;
    }

    /** nackTask for a row that was read as `snap`: neither does this one. */
    method NackTask(id: TaskId, snap: Task, code: string, now: Time)
      requires Valid() && id in tasks
      modifies this`tasks
      ensures Valid()
      ensures tasks == old(tasks)[id := CommitNack(old(tasks)[id], snap, code, now)]
    {
      var willFail := snap.attemptCount >= snap.maxAttempts;
      var row := tasks[id].(phase := Some(OfferFailed), lastErrorCode := Some(code));
      if willFail {
        row := row.(status := Failed, nextAttemptAt := None);
      } else {
        row := row.(status := Dispatched, nextAttemptAt := Some(now + BackoffMs(snap.attemptCount + 1)));
      }
      tasks := tasks[id := row];
    }

    /** The phase branches of a report. */
    static method WritePhase(owned: Task, req: Request, snap: Task, now: Time) returns (row: Task)
      requires req.Report?
      ensures row == ApplyPhase(owned, snap, req, now)
    {
      row := owned;
      if req.reported.OfferSent? {
        row := row.(status := Acked, phase := Some(OfferSent), lastErrorCode := None);
      } else if req.reported.OfferFailed? {
        var next := snap.attemptCount + 1;
        row := row.(attemptCount := next, lastErrorCode := Some(req.reason.GetOr("OFFER_SEND_FAILED")));
        if CanRetry(snap, req) {
          row := row.(status := Dispatched, phase := None, nextAttemptAt := Some(now + BackoffMs(next)));
        } else {
          row := row.(status := Failed, phase := Some(OfferFailed), nextAttemptAt := None);
        }
      } else {
        row := row.(phase := Some(req.reported), lastErrorCode := req.reason);
      }
    }

    /**
     The transaction of reportTaskProgress: own the row, store the event, write the phase. A stored
     event key or a lost row rolls everything back.
     */
    method ReportProgress(id: TaskId, req: Request, snap: Task, now: Time) returns (ok: bool)
      requires Valid() && id in tasks && req.Report?
      modifies this`tasks, this`keys
      ensures Valid()
      ensures var write := CommitReport(old(tasks)[id], orders[id], old(keys)[id], req, snap, now);
              && ok == write.Some?
              && tasks == (if ok then old(tasks)[id := write.value] else old(tasks))
              && keys == (if ok then old(keys)[id := old(keys)[id] + {req.key}] else old(keys))
    {
      var savedTasks := tasks;
      if req.reported.OfferSubmitted? && orders[id] != OS.WaitingTrade {
        return false;
      }
      var row := tasks[id];
      if row.status != snap.status || row.phase != snap.phase || row.leaseVersion != snap.leaseVersion {
        return false;
      }
      row := row.(leaseUntil := Some(now + LEASE_MS));
      if req.reported.OfferSubmitted? {
        row := row.(sendStartedAt := Some(now));
      }
      tasks := tasks[id := row];
      if req.key in keys[id] {
        tasks := savedTasks;
        return false;
      }
      keys := keys[id := keys[id] + {req.key}];
      row := WritePhase(row, req, snap, now);
      tasks := tasks[id := row];
      ok := true;
    }
  }
}
