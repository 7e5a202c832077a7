/**
 How often a trade task may be retried. The attempt count is not part of every commit condition, so the
 bound depends on what the calls in flight read: the exact condition is proved for every commit, and
 without it there is no bound at all.
 */
module TradeTaskRetries {
  import opened Common
  import OS = OrderStates
  import R = Runs
  import opened TradeTasks

  /** Failure reports and reopens are the steps that use up an attempt. */
  predicate Counts(req: Request) {
    (req.Report? && req.reported.OfferFailed?) || req.ReopenFailed? || req.ReopenExpired?
  }

  function Cost(req: Request): nat {
    if Counts(req) then 1 else 0
  }

  /** A task that could be dispatched or acknowledged again has attempts left to fail once more. */
  predicate RetryInv(task: Task) {
    && task.attemptCount <= task.maxAttempts + 1
    && (task.status.Created? || task.status.Dispatched? || task.status.Expired?
        ==> task.attemptCount <= task.maxAttempts)
    && (task.status.Acked? && task.phase != Some(OfferSent) ==> task.attemptCount <= task.maxAttempts)
  }

  /** What a call in flight was admitted on, as far as retries go. */
  predicate ReadOk(task: Task, call: Call) {
    var snap := call.snap;
    && snap.maxAttempts == task.maxAttempts
    && match call.req
       case Poll(_) => snap.status.Created? || snap.status.Dispatched?
       case Ack => snap.status.Created? || snap.status.Dispatched?
       case Expire => snap.status.Created? || snap.status.Dispatched?
       case Report(_, _, reported, _, _, _, _) =>
         reported.OfferSent?
         || (!snap.status.Expired? && !snap.status.Failed? && snap.phase != Some(OfferSent))
       case ReopenFailed(limit) => snap.attemptCount < limit
       case ReopenExpired(_) => snap.attemptCount < snap.maxAttempts
       case FailOver(_) => snap.status.Dispatched?
       case Nack(_) => true
  }

  ghost predicate RetryOk(s: State) {
    RetryInv(s.task) && forall c :: c in s.inFlight ==> ReadOk(s.task, c)
  }

  // ----- The exact condition of one commit -----

  predicate UsedUp(task: Task) {
    task.attemptCount > task.maxAttempts
  }

  /** Acknowledgements, and refusals that read a task with attempts left, hand the row back to the devices
      without comparing it with what they read. */
  predicate Revives(call: Call) {
    call.req.Ack? || (call.req.Nack? && call.snap.attemptCount < call.snap.maxAttempts)
  }

  /** What the row must be like when the call commits: a failure report has read its attempt count, no
      used-up task is revived, and a reopened one has an attempt left. */
  predicate Sound(task: Task, call: Call) {
    && (call.req.Report? && call.req.reported.OfferFailed? ==> call.snap.attemptCount == task.attemptCount)
    && (Revives(call) ==> !UsedUp(task))
    && (call.req.ReopenFailed? ==> task.attemptCount < task.maxAttempts)
  }

  /** A counted commit uses up exactly one attempt if and only if it is not a failure report that read another count. */
  lemma CountIsExact(s: State, call: Call, now: Time)
    requires Commits(s, call, now) && Counts(call.req)
    ensures FinishCall(s, call, now).task.attemptCount == s.task.attemptCount + 1
            <==> (call.req.Report? ==> call.snap.attemptCount == s.task.attemptCount)
  {
  }

  /** A commit keeps the retry bounds and the exact count if and only if it is sound. */
  lemma RetryBoundsNeedSoundCommits(s: State, call: Call, now: Time)
    requires RetryOk(s) && Commits(s, call, now)
    ensures var t := FinishCall(s, call, now).task;
            (RetryInv(t) && t.attemptCount == s.task.attemptCount + Cost(call.req)) <==> Sound(s.task, call)
  {
    assert ReadOk(s.task, call);
    match call.req
    case Report(_, _, reported, _, _, _, _) => ReportRetries(s, call, now);
    case _ =>
  }

  lemma ReportRetries(s: State, call: Call, now: Time)
    requires RetryOk(s) && Commits(s, call, now) && call.req.Report?
    ensures var t := FinishCall(s, call, now).task;
            (RetryInv(t) && t.attemptCount == s.task.attemptCount + Cost(call.req)) <==> Sound(s.task, call)
  {
    assert ReadOk(s.task, call);
  }

  // ----- Runs -----

  /** Every commit of the run is sound. */
  ghost predicate SoundRun(s: State, acts: seq<Action>)
    decreases |acts|
  {
    acts == []
    || ((acts[0].Finish? && Commits(s, acts[0].call, acts[0].at) ==> Sound(s.task, acts[0].call))
        && SoundRun(Step(s, acts[0]), acts[1..]))
  }

  /** How many failure reports and reopens of the run took effect. */
  function CountedCommits(s: State, acts: seq<Action>): nat
    decreases |acts|
  {
    if acts == [] then 0
    else
      (if acts[0].Finish? && Commits(s, acts[0].call, acts[0].at) then Cost(acts[0].call.req) else 0)
      + CountedCommits(Step(s, acts[0]), acts[1..])
  }

  lemma CommitKeepsReads(s: State, call: Call, now: Time)
    requires RetryOk(s) && Commits(s, call, now)
    ensures FinishCall(s, call, now).task.maxAttempts == s.task.maxAttempts
    ensures forall c :: c in FinishCall(s, call, now).inFlight ==> ReadOk(FinishCall(s, call, now).task, c)
  {
    var t := FinishCall(s, call, now);
    forall c | c in t.inFlight ensures ReadOk(t.task, c) {
      assert ReadOk(s.task, c);
    }
  }

  lemma StepKeepsRetryOk(s: State, a: Action)
    requires RetryOk(s) && (a.Finish? && Commits(s, a.call, a.at) ==> Sound(s.task, a.call))
    ensures RetryOk(Step(s, a)) && Step(s, a).task.maxAttempts == s.task.maxAttempts
    ensures Step(s, a).task.attemptCount
            == s.task.attemptCount + if a.Finish? && Commits(s, a.call, a.at) then Cost(a.call.req) else 0
  {
    if a.Finish? && Commits(s, a.call, a.at) {
      RetryBoundsNeedSoundCommits(s, a.call, a.at);
      CommitKeepsReads(s, a.call, a.at);
    } else {
      var t := Step(s, a);
      assert t.task == s.task;
      forall c | c in t.inFlight ensures ReadOk(t.task, c) {
        assert c in s.inFlight ==> ReadOk(s.task, c);
      }
    }
  }

  lemma {:induction false} SoundRunsKeepRetryOk(s: State, acts: seq<Action>)
    requires RetryOk(s) && SoundRun(s, acts)
    ensures RetryOk(Run(s, acts)) && Run(s, acts).task.maxAttempts == s.task.maxAttempts
    ensures Run(s, acts).task.attemptCount == s.task.attemptCount + CountedCommits(s, acts)
    decreases |acts|
  {
    if acts != [] {
      StepKeepsRetryOk(s, acts[0]);
      SoundRunsKeepRetryOk(Step(s, acts[0]), acts[1..]);
    }
  }

  /**
   Over a run with reads and commits interleaved whose commits are all sound, the attempt count is the
   number of failure reports and reopens that took effect; there are at most maxAttempts + 1 of them, and
   a task that may still be dispatched has used at most maxAttempts.
   */
  lemma RetriesAreBounded(start: State, acts: seq<Action>)
    requires Initial(start) && SoundRun(start, acts)
    ensures var t := Run(start, acts).task;
            && t.maxAttempts == start.task.maxAttempts
            && t.attemptCount == CountedCommits(start, acts)
            && CountedCommits(start, acts) <= start.task.maxAttempts + 1
            && (t.status.Created? || t.status.Dispatched? || t.status.Expired?
                ==> t.attemptCount <= t.maxAttempts)
  {
    SoundRunsKeepRetryOk(start, acts);
  }

  // ----- Calls that read and commit in one step -----

  /** Every commit of the run meets the row it read, and reopening uses the limit stored on the row. */
  ghost predicate FreshRun(s: State, acts: seq<Action>)
    decreases |acts|
  {
    acts == []
    || ((acts[0].Finish? && Commits(s, acts[0].call, acts[0].at) ==>
           acts[0].call.snap == s.task
           && (acts[0].call.req.ReopenFailed? ==> acts[0].call.req.limit == s.task.maxAttempts))
        && FreshRun(Step(s, acts[0]), acts[1..]))
  }

  lemma {:induction false} FreshRunsAreSound(s: State, acts: seq<Action>)
    requires RetryOk(s) && FreshRun(s, acts)
    ensures SoundRun(s, acts)
    decreases |acts|
  {
    if acts != [] {
      if acts[0].Finish? && Commits(s, acts[0].call, acts[0].at) {
        assert ReadOk(s.task, acts[0].call);
      }
      StepKeepsRetryOk(s, acts[0]);
      FreshRunsAreSound(Step(s, acts[0]), acts[1..]);
    }
  }

  /** When no other call changes the row between a call's read and its commit, the bound holds without any condition. */
  lemma OneStepCallsAreBounded(start: State, acts: seq<Action>)
    requires Initial(start) && FreshRun(start, acts)
    ensures var t := Run(start, acts).task;
            && t.attemptCount == CountedCommits(start, acts) <= start.task.maxAttempts + 1
            && (t.status.Created? || t.status.Dispatched? || t.status.Expired?
                ==> t.attemptCount <= t.maxAttempts)
  {
    FreshRunsAreSound(start, acts);
    RetriesAreBounded(start, acts);
  }

  // ----- Without the condition there is no bound, and no exact count -----

  /** What one step adds to the number of counted commits. */
  function Charge(s: State, a: Action): nat {
    if a.Finish? && Commits(s, a.call, a.at) then Cost(a.call.req) else 0
  }

  ghost predicate Leads(s: State, acts: seq<Action>, t: State, counted: nat) {
    R.Leads(Step, Charge, s, acts, t, counted)
  }

  lemma {:induction false} LeadsIsRun(s: State, acts: seq<Action>, t: State, counted: nat)
    requires Leads(s, acts, t, counted)
    ensures Run(s, acts) == t && CountedCommits(s, acts) == counted
    decreases |acts|
  {
    if acts != [] {
      LeadsIsRun(Step(s, acts[0]), acts[1..], t, counted - Charge(s, acts[0]));
    }
  }

  lemma Single(s: State, a: Action)
    ensures Leads(s, [a], Step(s, a), Charge(s, a))
  {
    R.Single(Step, Charge, s, a);
  }

  lemma Nothing(s: State)
    ensures Leads(s, [], s, 0)
  {
  }

  lemma Chain(s: State, xs: seq<Action>, t: State, ys: seq<Action>, u: State, m: nat, n: nat)
    requires Leads(s, xs, t, m) && Leads(t, ys, u, n)
    ensures Leads(s, xs + ys, u, m + n)
  {
    R.Chain(Step, Charge, s, xs, t, m, ys, u, n);
  }

  function Unary(k: nat): string {
    if k == 0 then "" else Unary(k - 1) + "i"
  }

  /** The event keys of the first `k` failure reports. */
  function UsedKeys(k: nat): set<string> {
    if k == 0 then {} else UsedKeys(k - 1) + {Unary(k - 1)}
  }

  lemma {:induction false} UnaryLength(k: nat)
    ensures |Unary(k)| == k
  {
    if k > 0 {
      UnaryLength(k - 1);
    }
  }

  lemma {:induction false} NextKeyIsFresh(k: nat, n: nat)
    requires k <= n
    ensures Unary(n) !in UsedKeys(k)
  {
    if k > 0 {
      NextKeyIsFresh(k - 1, n);
      UnaryLength(k - 1);
      UnaryLength(n);
    }
  }

  function Fresh(maxAttempts: nat): State {
    State(Task(Created, None, None, None, 0, None, 0, maxAttempts, 1000, None, None),
          OS.WaitingTrade, {}, Idle, multiset{})
  }

  /** The row once device d polled it. */
  function Polled(maxAttempts: nat): Task {
    Task(Dispatched, None, Some("d"), Some(LEASE_MS), 1, None, 0, maxAttempts, 1000, None, None)
  }

  /** A call that begins, and commits at once. */
  function Atomic(req: Request, row: Task): seq<Action> {
    [Begin(req, 0)] + [Finish(Call(req, row, 0), 0)]
  }

  lemma AtomicLeads(s: State, req: Request)
    requires Admits(s.task, s.order, s.keys, req, 0) && s.cancel.Idle?
    requires Commit(s.task, s.order, s.keys, Call(req, s.task, 0), 0).Some?
    ensures var t := s.(task := Commit(s.task, s.order, s.keys, Call(req, s.task, 0), 0).value,
                        keys := if req.Report? then s.keys + {req.key} else s.keys);
            Leads(s, Atomic(req, s.task), t, Cost(req))
  {
    var call := Call(req, s.task, 0);
    var begun := s.(inFlight := s.inFlight + multiset{call});
    Single(s, Begin(req, 0));
    Single(begun, Finish(call, 0));
    assert begun.inFlight - multiset{call} == s.inFlight;
    Chain(s, [Begin(req, 0)], begun, [Finish(call, 0)], Step(begun, Finish(call, 0)), 0, Cost(req));
  }

  function PollActs(maxAttempts: nat): seq<Action> {
    Atomic(Poll("d"), Fresh(maxAttempts).task)
  }

  lemma PollLeads(maxAttempts: nat)
    ensures Leads(Fresh(maxAttempts), PollActs(maxAttempts), Fresh(maxAttempts).(task := Polled(maxAttempts)), 0)
  {
    AtomicLeads(Fresh(maxAttempts), Poll("d"));
  }

  function FailReport(k: nat, retryable: bool): Request {
    Report(Some("d"), Some(1), OfferFailed, Unary(k), None, retryable, false)
  }

  // Refusals that were read on the fresh row, and commit one after the other much later.

  const NACK: Call := Call(Nack("x"), Polled(1), 0)

  function Refusals(n: int): multiset<Call> {
    if n <= 0 then multiset{} else Refusals(n - 1) + multiset{NACK}
  }

  /** The row after `c` failure reports, dispatched again by a refusal. */
  function Revived(c: nat): Task {
    if c == 0 then Polled(1)
    else Task(Dispatched, Some(OfferFailed), Some("d"), Some(LEASE_MS), 1, None, c, 1, 1000, Some(2000), Some("x"))
  }

  function FailedRow(c: nat): Task {
    Task(Failed, Some(OfferFailed), Some("d"), Some(LEASE_MS), 1, None, c, 1, 1000, None, Some("OFFER_SEND_FAILED"))
  }

  function FailedAt(c: nat, nacks: int): State {
    State(FailedRow(c), OS.WaitingTrade, UsedKeys(c), Idle, Refusals(nacks))
  }

  function RevivedAt(c: nat, nacks: nat): State {
    State(Revived(c), OS.WaitingTrade, UsedKeys(c), Idle, Refusals(nacks))
  }

  function FailActs(c: nat): seq<Action> {
    Atomic(FailReport(c, false), Revived(c))
  }

  lemma FailLeads(c: nat, nacks: nat)
    ensures Leads(RevivedAt(c, nacks), FailActs(c), FailedAt(c + 1, nacks), 1)
  {
    NextKeyIsFresh(c, c);
    AtomicLeads(RevivedAt(c, nacks), FailReport(c, false));
  }

  lemma NackRevives(c: nat, nacks: nat)
    requires c > 0 && nacks > 0
    ensures Leads(FailedAt(c, nacks), [Finish(NACK, 0)], RevivedAt(c, nacks - 1), 0)
  {
    assert Refusals(nacks) - multiset{NACK} == Refusals(nacks - 1);
    Single(FailedAt(c, nacks), Finish(NACK, 0));
  }

  /** A stale refusal, and another failure report. */
  function Round(c: nat): seq<Action> {
    [Finish(NACK, 0)] + FailActs(c)
  }

  lemma RoundLeads(c: nat, nacks: nat)
    requires c > 0 && nacks > 0
    ensures Leads(FailedAt(c, nacks), Round(c), FailedAt(c + 1, nacks - 1), 1)
  {
    NackRevives(c, nacks);
    FailLeads(c, nacks - 1);
    Chain(FailedAt(c, nacks), [Finish(NACK, 0)], RevivedAt(c, nacks - 1), FailActs(c), FailedAt(c + 1, nacks - 1),
          0, 1);
  }

  lemma {:induction false} RoundsLead(c: nat, n: nat, last: nat)
    requires c > 0 && c + n == last
    ensures Leads(FailedAt(c, n), R.Stretches(Round, c, n), FailedAt(last, 0), n)
    decreases n
  {
    if n == 0 {
      Nothing(FailedAt(c, 0));
    } else {
      RoundLeads(c, n);
      RoundsLead(c + 1, n - 1, last);
      var rest := R.Stretches(Round, c + 1, n - 1);
      Chain(FailedAt(c, n), Round(c), FailedAt(c + 1, n - 1), rest, FailedAt(last, 0), 1, n - 1);
    }
  }

  function BeginAct(k: nat): seq<Action> {
    [Begin(Nack("x"), 0)]
  }

  /** The fresh polled row with `k` refusals begun. */
  function Refusing(k: nat): State {
    RevivedAt(0, k)
  }

  lemma BeginLeads(k: nat)
    ensures Leads(Refusing(k), BeginAct(k), Refusing(k + 1), 0)
  {
    Single(Refusing(k), Begin(Nack("x"), 0));
  }

  lemma {:induction false} BeginsLead(k: nat, n: nat)
    ensures Leads(Refusing(k), R.Stretches(BeginAct, k, n), Refusing(k + n), 0)
    decreases n
  {
    if n == 0 {
      Nothing(Refusing(k));
    } else {
      BeginLeads(k);
      BeginsLead(k + 1, n - 1);
      Chain(Refusing(k), BeginAct(k), Refusing(k + 1), R.Stretches(BeginAct, k + 1, n - 1), Refusing(k + n), 0, 0);
    }
  }

  /** A failure report, and then each begun refusal followed by another one. */
  function ReportingActs(n: nat): seq<Action> {
    FailActs(0) + R.Stretches(Round, 1, n)
  }

  lemma ReportingLeads(n: nat)
    ensures Leads(Refusing(n), ReportingActs(n), FailedAt(n + 1, 0), n + 1)
  {
    FailLeads(0, n);
    RoundsLead(1, n, n + 1);
    Chain(Refusing(n), FailActs(0), FailedAt(1, n), R.Stretches(Round, 1, n), FailedAt(n + 1, 0), 1, n);
  }

  function RefusalActs(n: nat): seq<Action> {
    R.Stretches(BeginAct, 0, n) + ReportingActs(n)
  }

  lemma RefusalsLead(n: nat)
    ensures Leads(Refusing(0), RefusalActs(n), FailedAt(n + 1, 0), n + 1)
  {
    BeginsLead(0, n);
    ReportingLeads(n);
    Chain(Refusing(0), R.Stretches(BeginAct, 0, n), Refusing(n), ReportingActs(n), FailedAt(n + 1, 0), 0, n + 1);
  }

  /** A poll, `n` refusals that read the fresh row, a failure report, and then each refusal followed by another report. */
  function StaleRefusals(n: nat): seq<Action> {
    PollActs(1) + RefusalActs(n)
  }

  lemma StaleRefusalsLead(n: nat)
    ensures Leads(Fresh(1), StaleRefusals(n), FailedAt(n + 1, 0), n + 1)
  {
    PollLeads(1);
    RefusalsLead(n);
    assert Fresh(1).(task := Polled(1)) == Refusing(0);
    Chain(Fresh(1), PollActs(1), Refusing(0), RefusalActs(n), FailedAt(n + 1, 0), 0, n + 1);
  }

  /** A task that allows one attempt counts as many as there are stale refusals, and one more. */
  lemma StaleRefusalsHaveNoBound(n: nat)
    ensures Initial(Fresh(1)) && Fresh(1).task.maxAttempts == 1
    ensures Run(Fresh(1), StaleRefusals(n)).task.attemptCount == n + 1
  {
    StaleRefusalsLead(n);
    LeadsIsRun(Fresh(1), StaleRefusals(n), FailedAt(n + 1, 0), n + 1);
  }

  // Failure reports that all read the fresh row.

  function FailCall(k: nat): Call {
    Call(FailReport(k, true), Polled(2), 0)
  }

  /** The calls from the `k`-th up to the `n`-th. */
  function FailCalls(k: nat, n: nat): multiset<Call>
    decreases n - k
  {
    if k >= n then multiset{} else multiset{FailCall(k)} + FailCalls(k + 1, n)
  }

  lemma {:induction false} OneMoreCall(k: nat, n: nat)
    requires k <= n
    ensures FailCalls(k, n + 1) == FailCalls(k, n) + multiset{FailCall(n)}
    decreases n - k
  {
    if k < n {
      OneMoreCall(k + 1, n);
    }
  }

  function FailedOnce(): Task {
    Task(Dispatched, None, Some("d"), Some(LEASE_MS), 1, None, 1, 2, 1000, Some(2000), Some("OFFER_SEND_FAILED"))
  }

  /** Of `n` begun reports the first `k` have committed. */
  function Reported(k: nat, n: nat): State {
    State(if k == 0 then Polled(2) else FailedOnce(), OS.WaitingTrade, UsedKeys(k), Idle, FailCalls(k, n))
  }

  function ReportAct(k: nat): seq<Action> {
    [Begin(FailReport(k, true), 0)]
  }

  lemma ReportLeads(k: nat)
    ensures Leads(Reported(0, k), ReportAct(k), Reported(0, k + 1), 0)
  {
    OneMoreCall(0, k);
    Single(Reported(0, k), Begin(FailReport(k, true), 0));
  }

  lemma {:induction false} ReportsLead(k: nat, n: nat)
    ensures Leads(Reported(0, k), R.Stretches(ReportAct, k, n), Reported(0, k + n), 0)
    decreases n
  {
    if n == 0 {
      Nothing(Reported(0, k));
    } else {
      ReportLeads(k);
      ReportsLead(k + 1, n - 1);
      Chain(Reported(0, k), ReportAct(k), Reported(0, k + 1), R.Stretches(ReportAct, k + 1, n - 1),
            Reported(0, k + n), 0, 0);
    }
  }

  function CommitAct(k: nat): seq<Action> {
    [Finish(FailCall(k), 0)]
  }

  /** A report of the fresh row still matches it after any number of others. */
  lemma StaleReportCommits(s: State, k: nat)
    requires s.order == OS.WaitingTrade && s.cancel.Idle? && (s.task == Polled(2) || s.task == FailedOnce())
    requires FailCall(k) in s.inFlight && Unary(k) !in s.keys
    ensures Charge(s, Finish(FailCall(k), 0)) == 1
    ensures Step(s, Finish(FailCall(k), 0))
            == s.(task := FailedOnce(), keys := s.keys + {Unary(k)}, inFlight := s.inFlight - multiset{FailCall(k)})
  {
  }

  lemma StaleReportLeads(k: nat, n: nat)
    requires k < n
    ensures Leads(Reported(k, n), CommitAct(k), Reported(k + 1, n), 1)
  {
    NextKeyIsFresh(k, k);
    StaleReportCommits(Reported(k, n), k);
    assert FailCalls(k, n) - multiset{FailCall(k)} == FailCalls(k + 1, n);
    Single(Reported(k, n), Finish(FailCall(k), 0));
  }

  lemma CommitThen(k: nat, all: nat, rest: seq<Action>, n: nat)
    requires k < all && Leads(Reported(k + 1, all), rest, Reported(all, all), n)
    ensures Leads(Reported(k, all), CommitAct(k) + rest, Reported(all, all), n + 1)
  {
    StaleReportLeads(k, all);
    Chain(Reported(k, all), CommitAct(k), Reported(k + 1, all), rest, Reported(all, all), 1, n);
  }

  lemma {:induction false} CommitsLead(k: nat, n: nat, all: nat)
    requires k + n == all
    ensures Leads(Reported(k, all), R.Stretches(CommitAct, k, n), Reported(all, all), n)
    decreases n
  {
    if n == 0 {
      Nothing(Reported(all, all));
    } else {
      CommitsLead(k + 1, n - 1, all);
      CommitThen(k, all, R.Stretches(CommitAct, k + 1, n - 1), n - 1);
    }
  }

  function FailureActs(n: nat): seq<Action> {
    R.Stretches(ReportAct, 0, n) + R.Stretches(CommitAct, 0, n)
  }

  lemma FailuresLead(n: nat)
    ensures Leads(Reported(0, 0), FailureActs(n), Reported(n, n), n)
  {
    ReportsLead(0, n);
    CommitsLead(0, n, n);
    Chain(Reported(0, 0), R.Stretches(ReportAct, 0, n), Reported(0, n), R.Stretches(CommitAct, 0, n), Reported(n, n),
          0, n);
  }

  /** A poll, `n` failure reports that read the fresh row, and their commits. */
  function StaleFailures(n: nat): seq<Action> {
    PollActs(2) + FailureActs(n)
  }

  lemma StaleFailuresLead(n: nat)
    ensures Leads(Fresh(2), StaleFailures(n), Reported(n, n), n)
  {
    PollLeads(2);
    FailuresLead(n);
    assert Fresh(2).(task := Polled(2)) == Reported(0, 0);
    Chain(Fresh(2), PollActs(2), Reported(0, 0), FailureActs(n), Reported(n, n), 0, n);
  }

  /** Failure reports that read the same fresh row all commit and together count as one attempt. */
  lemma StaleFailuresCountOnce(n: nat)
    ensures Initial(Fresh(2))
    ensures CountedCommits(Fresh(2), StaleFailures(n)) == n
    ensures Run(Fresh(2), StaleFailures(n)).task.attemptCount == if n == 0 then 0 else 1
  {
    StaleFailuresLead(n);
    LeadsIsRun(Fresh(2), StaleFailures(n), Reported(n, n), n);
  }
}
