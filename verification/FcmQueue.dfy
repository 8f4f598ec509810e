/**
 * Push deliveries. Device tokens move between accounts, notifications are queued
 * for the devices an account has at that moment, and any number of workers claim
 * queued rows under fresh lock tokens, send, and record what happened. One step
 * is one transaction or one statement; a worker may stop between any two.
 */
module FcmQueue {
  import opened Backoff
  import opened Common

  type Positive = n: nat | n > 0 witness 1

  datatype Config = Config(maxAttempts: Positive, retryBaseMs: nat, lockMs: nat)

  datatype Status = Pending | Processing | Sent | Failed

  datatype DeviceToken = DeviceToken(user: int, role: Option<int>, enabled: bool)

  /**
   * A notification being queued: the statement reads the account's devices and
   * then makes the rows, without a lock on the devices in between.
   */
  datatype Job = Job(user: int, notification: int, targets: set<int>)

  /** The n-th enqueue makes at most one row for a device. */
  datatype Id = Id(serial: nat, device: int)

  datatype Delivery = Delivery(notification: int, recipient: int, status: Status, attempts: nat, nextAttemptAt: int,
                               lockedAt: Option<int>, lockToken: Option<int>)

  /** What a worker took away from its claim: the device's address, and for the record whose it was. */
  datatype Claimed = Claimed(recipient: int, ownerThen: int)

  datatype Event =
    | Push(lock: int, id: Id, recipient: int, ownerThen: int, owner: int, accepted: bool)
    | FailedTry(lock: int, id: Id)

  datatype State = State(now: int, tokens: map<int, DeviceToken>, deliveries: map<Id, Delivery>, enqueued: nat,
                         jobs: map<nat, Job>, runs: map<int, map<Id, Claimed>>, log: seq<Event>)

  datatype Step =
    | Wait(ms: nat)
    | RegisterToken(user: int, role: Option<int>, device: int)
    | RemoveToken(user: int, device: int)
    | SelectTargets(user: int, notification: int, audience: Option<int>)
    | InsertRows(serial: nat)
    | Claim(lock: int, chosen: set<Id>)
    | Send(lock: int, id: Id, accepted: bool)
    | DisableToken(device: int)
    | MarkSent(lock: int, id: Id)
    | MarkFailed(lock: int, id: Id, retryable: bool)

  const INITIAL: State := State(0, map[], map[], 0, map[], map[], [])

  // ---- Steps ----

  predicate Queued(d: Delivery) {
    d.status.Pending? || d.status.Processing?
  }

  predicate Claimable(d: Delivery, now: int, c: Config) {
    || (d.status.Pending? && d.nextAttemptAt <= now)
    || (d.status.Processing? && d.lockedAt.Some? && d.lockedAt.value < now - c.lockMs)
  }

  predicate Addressed(t: DeviceToken, user: int, audience: Option<int>) {
    t.user == user && t.enabled && (audience.None? || t.role.None? || t.role == audience)
  }

  predicate AlreadyQueued(deliveries: map<Id, Delivery>, notification: int, device: int) {
    exists id :: id in deliveries && id.device == device && deliveries[id].notification == notification
  }

  /** The devices that the statement finds for the account. */
  function Targets(s: State, user: int, audience: Option<int>): set<int> {
    set d | d in s.tokens && Addressed(s.tokens[d], user, audience)
  }

  /** Those that get a row: one that is there already makes the insertion do nothing. */
  function Missing(s: State, job: Job): set<int> {
    set d | d in job.targets && !AlreadyQueued(s.deliveries, job.notification, d)
  }

  function Fresh(s: State, serial: nat, job: Job): map<Id, Delivery> {
    map d | d in Missing(s, job) :: Id(serial, d) := Delivery(job.notification, job.user, Pending, 0, s.now, None, None)
  }

  /** The rows that go when a device changes hands. */
  function Orphans(s: State, user: int, device: int): set<Id> {
    if device in s.tokens && s.tokens[device].user != user
    then set id | id in s.deliveries && id.device == device && Queued(s.deliveries[id])
    else {}
  }

  function RetryDelayMs(c: Config, attempts: nat): nat {
    var delay := c.retryBaseMs * Pow2(attempts);
    if delay < 3_600_000 then delay else 3_600_000
  }

  function AfterFailure(d: Delivery, retryable: bool, now: int, c: Config): Delivery {
    var last := !retryable || d.attempts + 1 >= c.maxAttempts;
    d.(status := if last then Failed else Pending, attempts := d.attempts + 1,
       nextAttemptAt := if last then now else now + RetryDelayMs(c, d.attempts),
       lockedAt := None, lockToken := None)
  }

  predicate Holds(s: State, lock: int, id: Id) {
    id in s.deliveries && s.deliveries[id].lockToken == Some(lock)
  }

  predicate HasClaimed(s: State, lock: int, id: Id) {
    lock in s.runs && id in s.runs[lock] && id.device in s.tokens
  }

  /** The effect of one step; a step that cannot happen now has none. */
  function Do(s: State, step: Step, c: Config): State {
    match step
    case Wait(ms) => s.(now := s.now + ms)
    case RegisterToken(user, role, device) =>
      s.(deliveries := s.deliveries - Orphans(s, user, device),
         tokens := s.tokens[device := DeviceToken(user, role, true)])
    case RemoveToken(user, device) =>
      if device in s.tokens && s.tokens[device].user == user
      then s.(tokens := s.tokens[device := s.tokens[device].(enabled := false)]) else s
    case SelectTargets(user, notification, audience) =>
      s.(jobs := s.jobs[s.enqueued := Job(user, notification, Targets(s, user, audience))], enqueued := s.enqueued + 1)
    case InsertRows(serial) =>
      if serial in s.jobs
      then s.(deliveries := s.deliveries + Fresh(s, serial, s.jobs[serial]), jobs := s.jobs - {serial}) else s
    case Claim(lock, chosen) =>
      // Any part of the claimable rows: batch size, order and skipped locks decide which.
      if lock in s.runs then s
      else
        var taken := set id | id in chosen && id in s.deliveries && id.device in s.tokens
                              && Claimable(s.deliveries[id], s.now, c);
        s.(runs := s.runs[lock := map id | id in taken ::
                                    Claimed(s.deliveries[id].recipient, s.tokens[id.device].user)],
           deliveries := map id | id in s.deliveries ::
             if id in taken then s.deliveries[id].(status := Processing, lockedAt := Some(s.now),
                                                   lockToken := Some(lock))
             else s.deliveries[id])
    case Send(lock, id, accepted) =>
      if HasClaimed(s, lock, id) then
        var claimed := s.runs[lock][id];
        s.(log := s.log + [Push(lock, id, claimed.recipient, claimed.ownerThen, s.tokens[id.device].user, accepted)])
      else s
    case DisableToken(device) =>
      if device in s.tokens then s.(tokens := s.tokens[device := s.tokens[device].(enabled := false)]) else s
    case MarkSent(lock, id) =>
      if Holds(s, lock, id)
      then s.(deliveries := s.deliveries[id := s.deliveries[id].(status := Sent, lockedAt := None, lockToken := None)])
      else s
    case MarkFailed(lock, id, retryable) =>
      if Holds(s, lock, id)
      then s.(deliveries := s.deliveries[id := AfterFailure(s.deliveries[id], retryable, s.now, c)],
              log := s.log + [FailedTry(lock, id)])
      else s
  }

  /** The state after any schedule of steps of any accounts and workers. */
  function Run(steps: seq<Step>, c: Config): State {
    if steps == [] then INITIAL else Do(Run(steps[..|steps| - 1], c), steps[|steps| - 1], c)
  }

  // ---- What must hold ----

  function Failures(log: seq<Event>, id: Id): nat {
    if log == [] then 0
    else Failures(log[..|log| - 1], id) + (if log[|log| - 1].FailedTry? && log[|log| - 1].id == id then 1 else 0)
  }

  /** A number that an enqueue has used up. */
  predicate Inserted(s: State, id: Id) {
    id.serial < s.enqueued && id.serial !in s.jobs
  }

  predicate RowOk(s: State, id: Id, c: Config)
    requires id in s.deliveries
  {
    var d := s.deliveries[id];
    && (Queued(d) ==> d.attempts < c.maxAttempts)
    && (d.status.Processing? <==> d.lockToken.Some?)
    && (d.lockToken.Some? ==> d.lockToken.value in s.runs && id in s.runs[d.lockToken.value])
    && d.attempts == Failures(s.log, id)
    && Inserted(s, id) && id.device in s.tokens
  }

  predicate RowsOk(s: State, c: Config) {
    forall id :: id in s.deliveries ==> RowOk(s, id, c)
  }

  predicate JobsOk(s: State) {
    forall n :: n in s.jobs ==> n < s.enqueued && s.jobs[n].targets <= s.tokens.Keys
  }

  predicate SamePush(s: State, a: Id, b: Id)
    requires a in s.deliveries && b in s.deliveries
  {
    a.device == b.device && s.deliveries[a].notification == s.deliveries[b].notification
  }

  /** One row for a notification on a device. */
  predicate OnePerDevice(s: State) {
    forall a, b :: a in s.deliveries && b in s.deliveries && SamePush(s, a, b) ==> a == b
  }

  predicate ClaimedOk(s: State, lock: int, id: Id)
    requires lock in s.runs && id in s.runs[lock]
  {
    && id.device in s.tokens && Inserted(s, id)
    && (id in s.deliveries ==> s.deliveries[id].recipient == s.runs[lock][id].recipient)
  }

  predicate RunsOk(s: State) {
    forall lock, id :: lock in s.runs && id in s.runs[lock] ==> ClaimedOk(s, lock, id)
  }

  predicate LogOk(s: State) {
    forall i :: 0 <= i < |s.log| ==> Inserted(s, s.log[i].id)
  }

  predicate Inv(s: State, c: Config) {
    RowsOk(s, c) && JobsOk(s) && OnePerDevice(s) && RunsOk(s) && LogOk(s)
  }

  lemma {:induction false} FailuresSplit(log: seq<Event>, e: Event, id: Id)
    ensures Failures(log + [e], id) == Failures(log, id) + if e.FailedTry? && e.id == id then 1 else 0
  {
    assert (log + [e])[..|log|] == log;
  }

  lemma {:induction false} NoFailures(log: seq<Event>, id: Id)
    requires forall i :: 0 <= i < |log| ==> log[i].id != id
    ensures Failures(log, id) == 0
  {
    if log != [] {
      NoFailures(log[..|log| - 1], id);
    }
  }

  lemma StepKeepsLog(s: State, step: Step, c: Config)
    requires Inv(s, c)
    ensures LogOk(Do(s, step, c))
  {
    if step.Send? && HasClaimed(s, step.lock, step.id) {
      assert ClaimedOk(s, step.lock, step.id);
    }
    if step.MarkFailed? && Holds(s, step.lock, step.id) {
      assert RowOk(s, step.id, c);
    }
  }

  lemma StepKeepsJobs(s: State, step: Step, c: Config)
    requires JobsOk(s)
    ensures JobsOk(Do(s, step, c))
  {
  }

  lemma StepKeepsRuns(s: State, step: Step, c: Config)
    requires RowsOk(s, c) && RunsOk(s)
    ensures RunsOk(Do(s, step, c))
  {
    var s' := Do(s, step, c);
    forall lock, id | lock in s'.runs && id in s'.runs[lock] ensures ClaimedOk(s', lock, id) {
      if lock in s.runs {
        assert ClaimedOk(s, lock, id);
      } else {
        assert RowOk(s, id, c);
      }
    }
  }

  /** A row keeps its notification; a new row is for a device that had none for it. */
  lemma NotificationStays(s: State, step: Step, c: Config, id: Id)
    requires RowsOk(s, c) && id in Do(s, step, c).deliveries
    ensures var d := Do(s, step, c).deliveries[id];
            if id in s.deliveries then d.notification == s.deliveries[id].notification
            else step.InsertRows? && id.serial == step.serial && !AlreadyQueued(s.deliveries, d.notification, id.device)
  {
    assert id in s.deliveries ==> RowOk(s, id, c);
  }

  lemma StepKeepsOnePerDevice(s: State, step: Step, c: Config)
    requires Inv(s, c)
    ensures OnePerDevice(Do(s, step, c))
  {
    hide RowsOk, RunsOk, LogOk, Do;
    var s' := Do(s, step, c);
    forall a, b | a in s'.deliveries && b in s'.deliveries && SamePush(s', a, b) ensures a == b {
      NotificationStays(s, step, c, a);
      NotificationStays(s, step, c, b);
      if a in s.deliveries && b in s.deliveries {
        assert SamePush(s, a, b);
      }
    }
  }

  lemma StepKeepsRows(s: State, step: Step, c: Config)
    requires Inv(s, c)
    ensures RowsOk(Do(s, step, c), c)
  {
    var s' := Do(s, step, c);
    forall id | id in s'.deliveries ensures RowOk(s', id, c) {
      if id in s.deliveries {
        assert RowOk(s, id, c);
        RowStaysOk(s, step, c, id);
      } else {
        NoFailures(s.log, id);
      }
    }
  }

  /** A row's attempts keep up with the failures recorded for it. */
  lemma FailuresAfter(s: State, step: Step, c: Config, id: Id)
    requires id in s.deliveries && Inserted(s, id) && id in Do(s, step, c).deliveries
    ensures var failed := step.MarkFailed? && step.id == id && Holds(s, step.lock, id);
            && Failures(Do(s, step, c).log, id) == Failures(s.log, id) + (if failed then 1 else 0)
            && Do(s, step, c).deliveries[id].attempts == s.deliveries[id].attempts + (if failed then 1 else 0)
  {
    var s' := Do(s, step, c);
    hide Failures, RetryDelayMs;
    if |s'.log| > |s.log| {
      FailuresSplit(s.log, s'.log[|s.log|], id);
    }
  }

  lemma RowStaysOk(s: State, step: Step, c: Config, id: Id)
    requires id in s.deliveries && RowOk(s, id, c) && id in Do(s, step, c).deliveries
    ensures RowOk(Do(s, step, c), id, c)
  {
    FailuresAfter(s, step, c, id);
    hide Failures, RetryDelayMs, Fresh, Targets, Orphans;
  }

  lemma {:induction false} RunKeepsInv(steps: seq<Step>, c: Config)
    ensures Inv(Run(steps, c), c)
  {
    if steps != [] {
      var before, step := Run(steps[..|steps| - 1], c), steps[|steps| - 1];
      RunKeepsInv(steps[..|steps| - 1], c);
      hide Do, RowsOk, JobsOk, OnePerDevice, RunsOk, LogOk;
      StepKeepsJobs(before, step, c);
      StepKeepsRows(before, step, c);
      StepKeepsOnePerDevice(before, step, c);
      StepKeepsRuns(before, step, c);
      StepKeepsLog(before, step, c);
    }
  }

  // ---- Main results ----

  /**
   * In every schedule: a queued row has attempts left, and is locked exactly while
   * it is being processed; its attempts are exactly the failures recorded for it;
   * and a notification has at most one row for a device.
   */
  lemma RowsAreCountedAndLockedRight(steps: seq<Step>, c: Config, id: Id)
    requires id in Run(steps, c).deliveries
    ensures var s := Run(steps, c); var d := s.deliveries[id];
            && (Queued(d) ==> d.attempts < c.maxAttempts)
            && (d.status == Processing <==> d.lockToken.Some?)
            && d.attempts == Failures(s.log, id)
            && forall other :: other in s.deliveries && SamePush(s, id, other) ==> other == id
  {
    RunKeepsInv(steps, c);
    assert RowOk(Run(steps, c), id, c);
  }

  // ---- Whose rows are queued for a device ----

  predicate Owned(s: State, id: Id)
    requires id in s.deliveries
  {
    Queued(s.deliveries[id]) ==> id.device in s.tokens && s.tokens[id.device].user == s.deliveries[id].recipient
  }

  /** What is queued for a device is for the account that has it now. */
  predicate OwnersOk(s: State) {
    forall id :: id in s.deliveries ==> Owned(s, id)
  }

  /** Rows are made for a device that has changed hands since the statement read it. */
  predicate InsertsLate(s: State, step: Step) {
    && step.InsertRows? && step.serial in s.jobs
    && exists d :: d in Missing(s, s.jobs[step.serial]) && d in s.tokens && s.tokens[d].user != s.jobs[step.serial].user
  }

  predicate NeverInsertsLate(steps: seq<Step>, c: Config) {
    steps == [] || (NeverInsertsLate(steps[..|steps| - 1], c)
                    && !InsertsLate(Run(steps[..|steps| - 1], c), steps[|steps| - 1]))
  }

  lemma StepKeepsOwners(s: State, step: Step, c: Config)
    requires Inv(s, c) && OwnersOk(s) && !InsertsLate(s, step)
    ensures OwnersOk(Do(s, step, c))
  {
    var s' := Do(s, step, c);
    forall id | id in s'.deliveries ensures Owned(s', id) {
      if id in s.deliveries {
        assert Owned(s, id) && RowOk(s, id, c);
      } else {
        assert id.device in Missing(s, s.jobs[step.serial]);
      }
    }
  }

  lemma LateInsertIsForeign(s: State, step: Step, c: Config)
    requires Inv(s, c) && InsertsLate(s, step)
    ensures !OwnersOk(Do(s, step, c))
  {
    var job := s.jobs[step.serial];
    var d :| d in Missing(s, job) && d in s.tokens && s.tokens[d].user != job.user;
    assert Id(step.serial, d) in Fresh(s, step.serial, job);
    assert !Owned(Do(s, step, c), Id(step.serial, d));
  }

  lemma NothingIsOwed(c: Config)
    ensures OwnersOk(INITIAL)
  {
  }

  /**
   * All through a schedule whatever is queued for a device is for the account
   * that has the device, exactly when no enqueue in it makes its rows after the
   * device it read has changed hands. Registration removes what is queued at that
   * moment, not what is about to be.
   */
  lemma {:induction false} QueuedRowsBelongToTheOwner(steps: seq<Step>, c: Config)
    ensures (forall n :: 0 <= n <= |steps| ==> OwnersOk(Run(steps[..n], c))) <==> NeverInsertsLate(steps, c)
  {
    hide Do, OwnersOk, InsertsLate, Inv;
    assert steps[..|steps|] == steps;
    if steps == [] {
      NothingIsOwed(c);
    } else {
      var before, last := steps[..|steps| - 1], steps[|steps| - 1];
      QueuedRowsBelongToTheOwner(before, c);
      assert forall n :: 0 <= n <= |before| ==> before[..n] == steps[..n];
      assert before[..|before|] == before;
      RunKeepsInv(before, c);
      if InsertsLate(Run(before, c), last) {
        LateInsertIsForeign(Run(before, c), last, c);
      } else if OwnersOk(Run(before, c)) {
        StepKeepsOwners(Run(before, c), last, c);
      }
    }
  }

  /** What a worker claimed belonged to the device's owner then. */
  predicate ClaimsOwned(s: State) {
    forall lock, id :: lock in s.runs && id in s.runs[lock] ==> s.runs[lock][id].ownerThen == s.runs[lock][id].recipient
  }

  lemma StepKeepsClaimsOwned(s: State, step: Step, c: Config)
    requires OwnersOk(s) && ClaimsOwned(s)
    ensures ClaimsOwned(Do(s, step, c))
  {
    var s' := Do(s, step, c);
    forall lock, id | lock in s'.runs && id in s'.runs[lock]
      ensures s'.runs[lock][id].ownerThen == s'.runs[lock][id].recipient
    {
      if lock !in s.runs {
        assert Owned(s, id);
      }
    }
  }

  lemma {:induction false} RunKeepsOwned(steps: seq<Step>, c: Config)
    requires NeverInsertsLate(steps, c)
    ensures OwnersOk(Run(steps, c)) && ClaimsOwned(Run(steps, c))
  {
    hide Do, OwnersOk, InsertsLate, ClaimsOwned, Inv;
    if steps == [] {
      NothingIsOwed(c);
      NothingIsClaimed();
    } else {
      var before, last := steps[..|steps| - 1], steps[|steps| - 1];
      RunKeepsOwned(before, c);
      RunKeepsInv(before, c);
      StepKeepsOwners(Run(before, c), last, c);
      StepKeepsClaimsOwned(Run(before, c), last, c);
    }
  }

  lemma NothingIsClaimed()
    ensures ClaimsOwned(INITIAL)
  {
  }

  function After(s: State, steps: seq<Step>, c: Config): State
    decreases |steps|
  {
    if steps == [] then s else After(Do(s, steps[0], c), steps[1..], c)
  }

  /** Sent and failed rows never change again. */
  lemma {:induction false} SettledRowsAreFinal(s: State, steps: seq<Step>, c: Config, id: Id)
    requires Inv(s, c) && id in s.deliveries && !Queued(s.deliveries[id])
    ensures id in After(s, steps, c).deliveries && After(s, steps, c).deliveries[id] == s.deliveries[id]
    decreases |steps|
  {
    if steps != [] {
      var next := Do(s, steps[0], c);
      SettledRowSurvives(s, steps[0], c, id);
      StepKeepsRows(s, steps[0], c);
      StepKeepsJobs(s, steps[0], c);
      StepKeepsOnePerDevice(s, steps[0], c);
      StepKeepsRuns(s, steps[0], c);
      StepKeepsLog(s, steps[0], c);
      SettledRowsAreFinal(next, steps[1..], c, id);
    }
  }

  lemma SettledRowSurvives(s: State, step: Step, c: Config, id: Id)
    requires Inv(s, c) && id in s.deliveries && !Queued(s.deliveries[id])
    ensures id in Do(s, step, c).deliveries && Do(s, step, c).deliveries[id] == s.deliveries[id]
  {
    assert RowOk(s, id, c);
  }

  /** The wait before a retry never shrinks from one failure to the next and never exceeds an hour. */
  lemma RetryDelayGrowsToAnHour(c: Config, m: nat, n: nat)
    requires m <= n
    ensures RetryDelayMs(c, m) <= RetryDelayMs(c, n) <= 3_600_000
    ensures RetryDelayMs(c, 0) == if c.retryBaseMs < 3_600_000 then c.retryBaseMs else 3_600_000
  {
    hide Pow2;
    Pow2Monotone(m, n);
    ScaleKeepsOrder(c.retryBaseMs, Pow2(m), Pow2(n));
    assert Pow2(0) == 1 by { OneIsPow2(); }
  }

  /**
   * A row under a lock that is not stale changes only by its holder's own report,
   * or goes with a device that changes hands; a report of failure is counted, and
   * puts the row off by the retry delay unless it was the last one permitted.
   */
  lemma OnlyTheHolderEndsAFreshLock(s: State, step: Step, c: Config, id: Id)
    requires Inv(s, c) && id in s.deliveries && s.deliveries[id].status == Processing
    requires s.deliveries[id].lockedAt.Some? && s.deliveries[id].lockedAt.value >= s.now - c.lockMs
    ensures var d := s.deliveries[id]; var after := Do(s, step, c).deliveries;
            && id.device in s.tokens
            && (id !in after <==> step.RegisterToken? && step.device == id.device
                                  && step.user != s.tokens[id.device].user)
            && (id in after && after[id] != d ==>
                  (step.MarkSent? || step.MarkFailed?) && step.id == id && d.lockToken == Some(step.lock))
            && (id in after && step.MarkFailed? && after[id] != d ==>
                  && after[id].attempts == d.attempts + 1 && after[id].lockToken.None?
                  && (after[id].status == Pending <==> step.retryable && d.attempts + 1 < c.maxAttempts)
                  && (after[id].status == Pending ==> after[id].nextAttemptAt == s.now + RetryDelayMs(c, d.attempts)))
  {
    assert RowOk(s, id, c);
    hide RetryDelayMs;
  }

  /**
   * Where a push ends up: a claimed push reaches another account than the one it
   * is for exactly when the device has changed hands since the claim, and then
   * its row is no longer queued. While the row is still queued the push is safe.
   */
  lemma PushGoesAstrayIffDeviceMoved(steps: seq<Step>, c: Config, lock: int, id: Id, accepted: bool)
    requires HasClaimed(Run(steps, c), lock, id) && NeverInsertsLate(steps, c)
    ensures var s := Run(steps, c);
            var s' := Do(s, Send(lock, id, accepted), c);
            var push := s'.log[|s.log|];
            && push.Push? && push.owner == s.tokens[id.device].user
            && (push.owner != push.recipient <==> push.owner != push.ownerThen)
            && (push.owner != push.recipient ==> id !in s.deliveries || !Queued(s.deliveries[id]))
  {
    RunKeepsInv(steps, c);
    RunKeepsOwned(steps, c);
    hide Run;
    assert ClaimedOk(Run(steps, c), lock, id);
    if id in Run(steps, c).deliveries {
      assert RowOk(Run(steps, c), id, c) && Owned(Run(steps, c), id);
    }
  }

  const DEVICE: int := 5
  const FIRST: Id := Id(0, 5)

  /** Register for account 1, queue, claim; the device registers for account 2; only then is the push sent. */
  const HANDOVER: seq<Step> := [
    RegisterToken(1, None, DEVICE), SelectTargets(1, 9, None), InsertRows(0), Claim(7, {FIRST}),
    RegisterToken(2, None, DEVICE)]

  lemma RunOne(steps: seq<Step>, k: nat, c: Config)
    requires k < |steps|
    ensures Run(steps[..k + 1], c) == Do(Run(steps[..k], c), steps[k], c)
  {
    hide Do;
    assert steps[..k + 1][..k] == steps[..k];
  }

  lemma NothingRun(steps: seq<Step>, c: Config)
    ensures Run(steps[..0], c) == INITIAL
  {
  }

  /** Account 1 has registered the device, and a notification for it is about to be queued. */
  const SELECTED: State :=
    INITIAL.(tokens := map[DEVICE := DeviceToken(1, None, true)], enqueued := 1, jobs := map[0 := Job(1, 9, {DEVICE})])

  lemma FirstSelected(c: Config)
    ensures Do(Do(INITIAL, RegisterToken(1, None, DEVICE), c), SelectTargets(1, 9, None), c) == SELECTED
  {
    var s := Do(INITIAL, RegisterToken(1, None, DEVICE), c);
    assert s == INITIAL.(tokens := map[DEVICE := DeviceToken(1, None, true)]);
    assert Targets(s, 1, None) == {DEVICE};
  }

  /** The row made for account 1, whoever has the device meanwhile. */
  lemma FirstInserted(s: State, c: Config)
    requires s.jobs == SELECTED.jobs && s.deliveries == map[] && s.now == 0
    ensures Do(s, InsertRows(0), c)
            == s.(deliveries := map[FIRST := Delivery(9, 1, Pending, 0, 0, None, None)], jobs := map[])
  {
    assert Missing(s, s.jobs[0]) == {DEVICE};
    assert Fresh(s, 0, s.jobs[0]) == map[FIRST := Delivery(9, 1, Pending, 0, 0, None, None)];
  }

  lemma FirstClaimed(s: State, c: Config)
    requires s.deliveries == map[FIRST := Delivery(9, 1, Pending, 0, 0, None, None)]
    requires s.now == 0 && s.runs == map[] && DEVICE in s.tokens
    ensures Do(s, Claim(7, {FIRST}), c)
         == s.(runs := map[7 := map[FIRST := Claimed(1, s.tokens[DEVICE].user)]],
               deliveries := map[FIRST := Delivery(9, 1, Processing, 0, 0, Some(0), Some(7))])
  {
    var s' := Do(s, Claim(7, {FIRST}), c);
    var taken := set id | id in {FIRST} && id in s.deliveries && id.device in s.tokens
                          && Claimable(s.deliveries[id], s.now, c);
    assert taken == {FIRST};
    assert s'.runs[7] == map[FIRST := Claimed(1, s.tokens[DEVICE].user)];
    assert s'.runs == map[7 := map[FIRST := Claimed(1, s.tokens[DEVICE].user)]];
    assert s'.deliveries == map[FIRST := Delivery(9, 1, Processing, 0, 0, Some(0), Some(7))];
  }

  /** The device moves, and what is queued for it goes; what was claimed was taken already. */
  lemma DeviceMoves(s: State, c: Config)
    requires DEVICE in s.tokens && s.tokens[DEVICE].user == 1 && s.deliveries.Keys == {FIRST}
             && Queued(s.deliveries[FIRST])
    ensures Do(s, RegisterToken(2, None, DEVICE), c)
         == s.(deliveries := map[], tokens := s.tokens[DEVICE := DeviceToken(2, None, true)])
  {
    assert FIRST in Orphans(s, 2, DEVICE);
    assert s.deliveries - Orphans(s, 2, DEVICE) == map[];
  }

  lemma ClaimedThenMoved(c: Config)
    ensures Run(HANDOVER, c) == SELECTED.(jobs := map[], tokens := map[DEVICE := DeviceToken(2, None, true)],
                                          runs := map[7 := map[FIRST := Claimed(1, 1)]])
  {
    hide Run, Do;
    NothingRun(HANDOVER, c);
    RunOne(HANDOVER, 0, c);
    RunOne(HANDOVER, 1, c);
    RunOne(HANDOVER, 2, c);
    RunOne(HANDOVER, 3, c);
    RunOne(HANDOVER, 4, c);
    assert HANDOVER[..5] == HANDOVER;
    FirstSelected(c);
    FirstInserted(SELECTED, c);
    FirstClaimed(Run(HANDOVER[..3], c), c);
    DeviceMoves(Run(HANDOVER[..4], c), c);
  }

  /**
   * So a push of the previous account can reach the next one after all: removing
   * the queued rows at registration does not reach a push already taken.
   */
  lemma MovedDeviceCanGetTheOldPush(c: Config)
    ensures var s := Run(HANDOVER, c);
            && HasClaimed(s, 7, FIRST) && FIRST !in s.deliveries
            && Do(s, Send(7, FIRST, true), c).log == [Push(7, FIRST, 1, 1, 2, true)]
  {
    ClaimedThenMoved(c);
    hide Run;
  }

  /** The device registers for account 2 while account 1's notification is being queued. */
  const LATE: seq<Step> := [
    RegisterToken(1, None, DEVICE), SelectTargets(1, 9, None), RegisterToken(2, None, DEVICE), InsertRows(0),
    Claim(7, {FIRST})]

  lemma SelectedThenMoved(c: Config)
    ensures Do(SELECTED, RegisterToken(2, None, DEVICE), c)
         == SELECTED.(tokens := map[DEVICE := DeviceToken(2, None, true)])
  {
    assert SELECTED.deliveries - Orphans(SELECTED, 2, DEVICE) == map[];
  }

  lemma InsertedLate(c: Config)
    ensures Run(LATE[..4], c) == SELECTED.(jobs := map[], tokens := map[DEVICE := DeviceToken(2, None, true)],
                                           deliveries := map[FIRST := Delivery(9, 1, Pending, 0, 0, None, None)])
    ensures Run(LATE, c) == Do(Run(LATE[..4], c), Claim(7, {FIRST}), c)
  {
    hide Run, Do;
    NothingRun(LATE, c);
    RunOne(LATE, 0, c);
    RunOne(LATE, 1, c);
    RunOne(LATE, 2, c);
    RunOne(LATE, 3, c);
    RunOne(LATE, 4, c);
    assert LATE[..5] == LATE;
    FirstSelected(c);
    SelectedThenMoved(c);
    FirstInserted(Run(LATE[..3], c), c);
  }

  /**
   * Then the row stays queued for a device of the next account, and its push goes there
   * without any delay in sending.
   */
  lemma LateRowReachesTheNextAccount(c: Config)
    ensures !OwnersOk(Run(LATE[..4], c))
    ensures var s := Run(LATE, c);
            && HasClaimed(s, 7, FIRST)
            && Do(s, Send(7, FIRST, true), c).log == [Push(7, FIRST, 1, 2, 2, true)]
  {
    InsertedLate(c);
    hide Run;
    assert !Owned(Run(LATE[..4], c), FIRST);
    FirstClaimed(Run(LATE[..4], c), c);
  }

  // ---- The service ----

  /**
   * What sending one delivery came to. The last two are statements that throw
   * after the provider has answered: they may have taken effect all the same, and
   * the error decides about a retry.
   */
  datatype SendResult =
    | Accepted
    | InvalidToken
    | Error(retryable: bool)
    | AcceptedThenThrew(recorded: bool, retryable: bool)
    | InvalidThenThrew(disabled: bool, recorded: bool, retryable: bool)

  /** Whether the provider took the push, whatever was recorded about it. */
  predicate Reached(r: SendResult) {
    r.Accepted? || r.AcceptedThenThrew?
  }

  /** What is told about the device: that the provider does not know it, if that statement took effect. */
  function DeviceNews(result: SendResult, device: int): seq<Step> {
    match result
    case InvalidToken => [DisableToken(device)]
    case InvalidThenThrew(true, _, _) => [DisableToken(device)]
    case _ => []
  }

  /** What is told about the row; an error is told last, whatever was recorded before it. */
  function RowNews(result: SendResult, lock: int, id: Id): seq<Step> {
    match result
    case Accepted => [MarkSent(lock, id)]
    case InvalidToken => [MarkFailed(lock, id, false)]
    case Error(retryable) => [MarkFailed(lock, id, retryable)]
    case AcceptedThenThrew(recorded, retryable) =>
      (if recorded then [MarkSent(lock, id)] else []) + [MarkFailed(lock, id, retryable)]
    case InvalidThenThrew(disabled, recorded, retryable) =>
      (if disabled && recorded then [MarkFailed(lock, id, false)] else []) + [MarkFailed(lock, id, retryable)]
  }

  predicate IsTold(history: seq<Step>, lock: int, id: Id, result: SendResult) {
    && Send(lock, id, Reached(result)) in history
    && forall step :: step in DeviceNews(result, id.device) + RowNews(result, lock, id) ==> step in history
  }

  /** How often a run sent a delivery with this answer. */
  function Pushes(log: seq<Event>, lock: int, id: Id, accepted: bool): nat {
    if log == [] then 0
    else
      var e := log[|log| - 1];
      Pushes(log[..|log| - 1], lock, id, accepted)
      + if e.Push? && e.lock == lock && e.id == id && e.accepted == accepted then 1 else 0
  }

  predicate Concerns(step: Step, lock: int) {
    (step.Claim? || step.Send? || step.MarkSent? || step.MarkFailed?) && step.lock == lock
  }

  predicate NoneConcerns(steps: seq<Step>, lock: int) {
    forall i :: 0 <= i < |steps| ==> !Concerns(steps[i], lock)
  }

  /** The tables behind the service; `history` is the schedule so far. */
  class FcmService {
    const config: Config
    var now: int
    var tokens: map<int, DeviceToken>
    var deliveries: map<Id, Delivery>
    var enqueued: nat
    var jobs: map<nat, Job>
    var runs: map<int, map<Id, Claimed>>
    ghost var log: seq<Event>
    ghost var history: seq<Step>

    ghost function Snapshot(): State
      reads this
    {
      State(now, tokens, deliveries, enqueued, jobs, runs, log)
    }

    ghost predicate Valid()
      reads this
    {
      Snapshot() == Run(history, config)
    }

    constructor (config: Config)
      ensures Valid() && history == [] && this.config == config
    {
      this.config := config;
      now, tokens, deliveries, enqueued, jobs, runs, log, history := 0, map[], map[], 0, map[], map[], [], [];
    }

    ghost method Record(step: Step)
      modifies this`history
      ensures history == old(history) + [step]
      ensures Run(history, config) == Do(Run(old(history), config), step, config)
    {
      history := history + [step];
      assert history[..|history| - 1] == old(history);
    }

    /** A token that belongs to somebody else loses its queued rows before it changes hands. */
    method RegisterToken(user: int, role: Option<int>, device: int)
      requires Valid()
      modifies this
      ensures Valid() && history == old(history) + [Step.RegisterToken(user, role, device)]
      ensures Snapshot() == Do(old(Snapshot()), Step.RegisterToken(user, role, device), config)
    {
      Record(Step.RegisterToken(user, role, device));
      if device in tokens && tokens[device].user != user {
        deliveries := map id | id in deliveries && !(id.device == device && Queued(deliveries[id])) :: deliveries[id];
      }
      assert deliveries == old(deliveries) - Orphans(old(Snapshot()), user, device);
      tokens := tokens[device := DeviceToken(user, role, true)];
    }

    method RemoveToken(user: int, device: int) returns (removed: bool)
      requires Valid()
      modifies this
      ensures Valid() && history == old(history) + [Step.RemoveToken(user, device)]
      ensures Snapshot() == Do(old(Snapshot()), Step.RemoveToken(user, device), config)
      ensures removed <==> device in old(tokens) && old(tokens)[device].user == user
    {
      Record(Step.RemoveToken(user, device));
      removed := device in tokens && tokens[device].user == user;
      if removed {
        tokens := tokens[device := tokens[device].(enabled := false)];
      }
    }

    method SelectTargets(user: int, notification: int, audience: Option<int>) returns (serial: nat)
      requires Valid()
      modifies this
      ensures Valid() && history == old(history) + [Step.SelectTargets(user, notification, audience)]
      ensures Snapshot() == Do(old(Snapshot()), Step.SelectTargets(user, notification, audience), config)
      ensures serial == old(enqueued)
    {
      Record(Step.SelectTargets(user, notification, audience));
      var targets := set d | d in tokens && Addressed(tokens[d], user, audience);
      serial := enqueued;
      jobs, enqueued := jobs[serial := Job(user, notification, targets)], serial + 1;
    }

    method InsertRows(serial: nat) returns (count: nat)
      requires Valid()
      modifies this
      ensures Valid() && history == old(history) + [Step.InsertRows(serial)]
      ensures Snapshot() == Do(old(Snapshot()), Step.InsertRows(serial), config)
      ensures count == if serial in old(jobs) then |old(Missing(Snapshot(), jobs[serial]))| else 0
    {
      Record(Step.InsertRows(serial));
      count := 0;
      if serial in jobs {
        var job := jobs[serial];
        var missing := set d | d in job.targets && !AlreadyQueued(deliveries, job.notification, d);
        assert missing == Missing(old(Snapshot()), job);
        count := |missing|;
        deliveries := deliveries +
          map d | d in missing :: Id(serial, d) := Delivery(job.notification, job.user, Pending, 0, now, None, None);
        jobs := jobs - {serial};
      }
    }

    /** One statement; what others commit between its reading and its writing is `others`. */
    method EnqueueNotification(user: int, notification: int, audience: Option<int>, others: seq<Step>)
      returns (count: nat)
      requires Valid()
      requires forall i :: 0 <= i < |others| ==> others[i] != Step.InsertRows(enqueued)
      modifies this
      ensures Valid()
      ensures history == old(history) + [Step.SelectTargets(user, notification, audience)] + others
                         + [Step.InsertRows(old(enqueued))]
      ensures var s := Run(old(history) + [Step.SelectTargets(user, notification, audience)] + others, config);
              count == |Missing(s, Job(user, notification, old(Targets(Snapshot(), user, audience))))|
    {
      RunKeepsInv(history, config);
      ghost var job := Job(user, notification, Targets(Snapshot(), user, audience));
      var serial := SelectTargets(user, notification, audience);
      ghost var before := history;
      hide Do;
      assert others[..0] == [];
      for n := 0 to |others|
        invariant Valid() && history == before + others[..n]
        invariant serial < enqueued && serial in jobs && jobs[serial] == job
      {
        JobStays(Snapshot(), others[n], config, serial);
        Apply(others[n]);
        assert others[..n + 1] == others[..n] + [others[n]];
      }
      assert others[..|others|] == others;
      count := InsertRows(serial);
    }

    /** The claim of one run: rows that are due, or whose lock is stale, are taken under its token. */
    method ClaimDeliveries(lock: int, chosen: set<Id>)
      requires Valid()
      modifies this
      ensures Valid() && history == old(history) + [Claim(lock, chosen)]
      ensures Snapshot() == Do(old(Snapshot()), Claim(lock, chosen), config)
    {
      Record(Claim(lock, chosen));
      if lock !in runs {
        var taken := set id | id in chosen && id in deliveries && id.device in tokens
                              && Claimable(deliveries[id], now, config);
        runs := runs[lock := map id | id in taken :: Claimed(deliveries[id].recipient, tokens[id.device].user)];
        deliveries := map id | id in deliveries ::
          if id in taken then deliveries[id].(status := Processing, lockedAt := Some(now), lockToken := Some(lock))
          else deliveries[id];
      }
    }

    method MarkSent(id: Id, lock: int)
      requires Valid()
      modifies this
      ensures Valid() && history == old(history) + [Step.MarkSent(lock, id)]
      ensures Snapshot() == Do(old(Snapshot()), Step.MarkSent(lock, id), config)
    {
      Record(Step.MarkSent(lock, id));
      if id in deliveries && deliveries[id].lockToken == Some(lock) {
        deliveries := deliveries[id := deliveries[id].(status := Sent, lockedAt := None, lockToken := None)];
      }
    }

    method MarkFailed(id: Id, lock: int, retryable: bool)
      requires Valid()
      modifies this
      ensures Valid() && history == old(history) + [Step.MarkFailed(lock, id, retryable)]
      ensures Snapshot() == Do(old(Snapshot()), Step.MarkFailed(lock, id, retryable), config)
    {
      Record(Step.MarkFailed(lock, id, retryable));
      if id in deliveries && deliveries[id].lockToken == Some(lock) {
        var d := deliveries[id];
        if !retryable || d.attempts + 1 >= config.maxAttempts {
          deliveries := deliveries[id := Delivery(d.notification, d.recipient, Failed, d.attempts + 1, now,
                                                  None, None)];
        } else {
          var nextAttemptAt := now + RetryDelayMs(config, d.attempts);
          deliveries := deliveries[id := Delivery(d.notification, d.recipient, Pending, d.attempts + 1, nextAttemptAt,
                                                  None, None)];
        }
        log := log + [FailedTry(lock, id)];
      }
    }

    method DisableToken(device: int)
      requires Valid()
      modifies this
      ensures Valid() && history == old(history) + [Step.DisableToken(device)]
      ensures Snapshot() == Do(old(Snapshot()), Step.DisableToken(device), config)
    {
      Record(Step.DisableToken(device));
      if device in tokens {
        tokens := tokens[device := tokens[device].(enabled := false)];
      }
    }

    /** The request leaves for the address taken at the claim; whoever has the device now gets it. */
    method SendPush(id: Id, lock: int, accepted: bool)
      requires Valid()
      modifies this
      ensures Valid() && history == old(history) + [Send(lock, id, accepted)]
      ensures Snapshot() == Do(old(Snapshot()), Send(lock, id, accepted), config)
    {
      Record(Send(lock, id, accepted));
      if lock in runs && id in runs[lock] && id.device in tokens {
        var claimed := runs[lock][id];
        log := log + [Push(lock, id, claimed.recipient, claimed.ownerThen, tokens[id.device].user, accepted)];
      }
    }

    method Tick(ms: nat)
      requires Valid()
      modifies this
      ensures Valid() && history == old(history) + [Wait(ms)]
      ensures Snapshot() == Do(old(Snapshot()), Wait(ms), config)
    {
      Record(Wait(ms));
      now := now + ms;
    }

    method Apply(step: Step)
      requires Valid()
      modifies this
      ensures Valid() && history == old(history) + [step]
      ensures Snapshot() == Do(old(Snapshot()), step, config)
    {
      hide Do;
      match step {
        case Wait(ms) => Tick(ms);
        case RegisterToken(user, role, device) => RegisterToken(user, role, device);
        case RemoveToken(user, device) => var _ := RemoveToken(user, device);
        case SelectTargets(user, notification, audience) => var _ := SelectTargets(user, notification, audience);
        case InsertRows(serial) => var _ := InsertRows(serial);
        case Claim(lock, chosen) => ClaimDeliveries(lock, chosen);
        case Send(lock, id, accepted) => SendPush(id, lock, accepted);
        case DisableToken(device) => DisableToken(device);
        case MarkSent(lock, id) => MarkSent(id, lock);
        case MarkFailed(lock, id, retryable) => MarkFailed(id, lock, retryable);
      }
    }

    /** Whatever accounts and other workers do meanwhile. */
    method Interfere(others: seq<Step>, lock: int)
      requires Valid() && lock in runs && NoneConcerns(others, lock)
      modifies this
      ensures Valid() && history == old(history) + others
      ensures lock in runs && LeavesRun(old(Snapshot()), Snapshot(), lock)
    {
      hide LeavesRun;
      NothingLeavesRun(Snapshot(), lock);
      for n := 0 to |others|
        invariant Valid() && history == old(history) + others[..n]
        invariant lock in runs && LeavesRun(old(Snapshot()), Snapshot(), lock)
      {
        OthersLeaveRun(old(Snapshot()), Snapshot(), others[n], config, lock);
        Apply(others[n]);
      }
    }

    /** Records the outcome of one send, whatever throws on the way; `others` act between its statements. */
    method Report(id: Id, lock: int, result: SendResult, others: seq<Step>)
      requires Valid() && lock in runs && NoneConcerns(others, lock)
      modifies this
      ensures Valid()
      ensures history == old(history) + DeviceNews(result, id.device) + others + RowNews(result, lock, id)
      ensures lock in runs && LeavesRun(old(Snapshot()), Snapshot(), lock) && !Holds(Snapshot(), lock, id)
    {
      hide Do, Run, LeavesRun, Holds;
      NothingLeavesRun(Snapshot(), lock);
      if result.InvalidToken? || (result.InvalidThenThrew? && result.disabled) {
        OthersLeaveRun(old(Snapshot()), Snapshot(), Step.DisableToken(id.device), config, lock);
        DisableToken(id.device);
      }
      ghost var before := Snapshot();
      Interfere(others, lock);
      LeavesRunTwice(old(Snapshot()), before, Snapshot(), lock);
      if result.InvalidToken? || (result.InvalidThenThrew? && result.disabled && result.recorded) {
        MarkReleases(old(Snapshot()), Snapshot(), Step.MarkFailed(lock, id, false), config);
        MarkFailed(id, lock, false);
      }
      if result.Accepted? || (result.AcceptedThenThrew? && result.recorded) {
        MarkReleases(old(Snapshot()), Snapshot(), Step.MarkSent(lock, id), config);
        MarkSent(id, lock);
      }
      if result.Error? || result.AcceptedThenThrew? || result.InvalidThenThrew? {
        MarkReleases(old(Snapshot()), Snapshot(), Step.MarkFailed(lock, id, result.retryable), config);
        MarkFailed(id, lock, result.retryable);
      }
    }

    /** Sends one claimed delivery and reports what came of it; others act before, in between and after. */
    method Deliver(id: Id, lock: int, result: SendResult, interference: nat -> seq<Step>, n: nat)
      requires Valid() && lock in runs && id in runs[lock]
      requires forall k :: NoneConcerns(interference(k), lock)
      modifies this
      ensures Valid() && old(history) <= history && IsTold(history, lock, id, result)
      ensures lock in runs && Delivered(old(Snapshot()), Snapshot(), lock, id, Reached(result))
      ensures !Holds(Snapshot(), lock, id)
    {
      hide Do, Run, LeavesRun, Delivered, Holds, Reached, Inv, NoneConcerns;
      Interfere(interference(3 * n), lock);
      ghost var ready := Snapshot();
      RunIsTheSame(old(Snapshot()), ready, lock);
      RunKeepsInv(history, config);
      PushCounts(old(Snapshot()), ready, config, lock, id, Reached(result));
      SendPush(id, lock, Reached(result));
      ghost var pushed := Snapshot();
      Interfere(interference(3 * n + 1), lock);
      DeliveredThenLeft(old(Snapshot()), pushed, Snapshot(), lock, id, Reached(result));
      ghost var sent := Snapshot();
      Report(id, lock, result, interference(3 * n + 2));
      DeliveredThenLeft(old(Snapshot()), sent, Snapshot(), lock, id, Reached(result));
    }

    /**
     * One run under a fresh token, with others acting between any two of its
     * statements. Every claimed delivery is sent exactly once and nothing else;
     * none stays locked under the token; `sent` are those that were accepted and
     * recorded without an error, and `failed` all the others.
     */
    method RunOnce(lock: int, chosen: set<Id>, results: Id -> SendResult, interference: nat -> seq<Step>)
      returns (processed: nat, sent: nat, failed: nat)
      requires Valid() && lock !in runs
      requires forall k :: NoneConcerns(interference(k), lock)
      modifies this
      ensures Valid() && old(history) <= history && lock in runs
      ensures forall id, accepted :: Pushes(log, lock, id, accepted) ==
                if id in runs[lock] && accepted == Reached(results(id)) then 1 else 0
      ensures forall id :: !Holds(Snapshot(), lock, id)
      ensures forall id :: id in runs[lock] ==> IsTold(history, lock, id, results(id))
      ensures sent == |set id | id in runs[lock] && results(id).Accepted?|
      ensures processed == |runs[lock]| == sent + failed
    {
      RunKeepsInv(history, config);
      FreshLockHasSentNothing(history, config, lock);
      hide Pushes, Delivered, Do, Run, Holds, Inv, Reached;
      ClaimTakesOnly(Snapshot(), lock, chosen, config, results);
      ClaimDeliveries(lock, chosen);
      sent, failed := 0, 0;
      var claimed := runs[lock].Keys;
      var left, n := claimed, 0;
      processed := |claimed|;
      hide SentOf, Progress, NoneConcerns;
      NothingSentYet(claimed, results);
      while left != {}
        invariant Valid() && old(history) <= history
        invariant lock in runs && Progress(Snapshot(), lock, claimed, left, results)
        invariant left <= claimed && sent + failed + |left| == |claimed|
        invariant forall id :: id in claimed - left ==> IsTold(history, lock, id, results(id))
        invariant sent == |SentOf(claimed - left, results)|
        decreases left
      {
        var id :| id in left;
        ghost var before := Snapshot();
        ProgressIsClaimed(before, lock, claimed, left, results);
        Deliver(id, lock, results(id), interference, n);
        ProgressGoesOn(before, Snapshot(), lock, claimed, left, results, id);
        OneMoreSent(claimed, left, results, id);
        if results(id).Accepted? {
          sent := sent + 1;
        } else {
          failed := failed + 1;
        }
        left, n := left - {id}, n + 1;
      }
      assert claimed - left == claimed;
      ProgressEnds(Snapshot(), lock, claimed, left, results);
    }
  }

  /** Of these deliveries, those whose send was accepted and recorded. */
  function SentOf(ids: set<Id>, results: Id -> SendResult): set<Id> {
    set id | id in ids && results(id).Accepted?
  }

  lemma NothingSentYet(claimed: set<Id>, results: Id -> SendResult)
    ensures |SentOf(claimed - claimed, results)| == 0
  {
    assert SentOf(claimed - claimed, results) == {};
  }

  lemma OneMoreSent(claimed: set<Id>, left: set<Id>, results: Id -> SendResult, id: Id)
    requires id in left && left <= claimed
    ensures |SentOf(claimed - (left - {id}), results)|
         == |SentOf(claimed - left, results)| + if results(id).Accepted? then 1 else 0
  {
    var before, after := SentOf(claimed - left, results), SentOf(claimed - (left - {id}), results);
    assert after == if results(id).Accepted? then before + {id} else before;
  }

  /** What a run has done once only `left` is left of what it claimed. */
  ghost predicate Progress(s: State, lock: int, claimed: set<Id>, left: set<Id>, results: Id -> SendResult)
    requires lock in s.runs
  {
    && s.runs[lock].Keys == claimed
    && (forall id, accepted :: Pushes(s.log, lock, id, accepted) ==
                               if id in claimed && id !in left && accepted == Reached(results(id)) then 1 else 0)
    && (forall id :: Holds(s, lock, id) ==> id in left)
  }

  lemma ProgressIsClaimed(s: State, lock: int, claimed: set<Id>, left: set<Id>, results: Id -> SendResult)
    requires lock in s.runs && Progress(s, lock, claimed, left, results)
    ensures s.runs[lock].Keys == claimed
  {
  }

  lemma ProgressGoesOn(s: State, s': State, lock: int, claimed: set<Id>, left: set<Id>, results: Id -> SendResult,
                       id: Id)
    requires lock in s.runs && Progress(s, lock, claimed, left, results) && id in left && left <= claimed
    requires lock in s'.runs && Delivered(s, s', lock, id, Reached(results(id))) && !Holds(s', lock, id)
    ensures Progress(s', lock, claimed, left - {id}, results)
  {
    hide Pushes, Holds, Reached;
  }

  lemma ProgressEnds(s: State, lock: int, claimed: set<Id>, left: set<Id>, results: Id -> SendResult)
    requires lock in s.runs && Progress(s, lock, claimed, left, results) && left == {}
    ensures |s.runs[lock]| == |claimed|
    ensures SentOf(claimed, results) == set id | id in s.runs[lock] && results(id).Accepted?
    ensures forall id, accepted :: Pushes(s.log, lock, id, accepted) ==
              if id in s.runs[lock] && accepted == Reached(results(id)) then 1 else 0
    ensures forall id :: !Holds(s, lock, id)
  {
    assert |s.runs[lock]| == |s.runs[lock].Keys|;
  }

  lemma {:induction false} PushesSplit(log: seq<Event>, e: Event, lock: int, id: Id, accepted: bool)
    ensures Pushes(log + [e], lock, id, accepted) ==
            Pushes(log, lock, id, accepted) +
            if e.Push? && e.lock == lock && e.id == id && e.accepted == accepted then 1 else 0
  {
    assert (log + [e])[..|log|] == log;
  }

  /** What a run claimed and has sent stays the same, and it holds no further row. */
  ghost predicate LeavesRun(s: State, s': State, lock: int)
    requires lock in s.runs
  {
    && lock in s'.runs && s'.runs[lock] == s.runs[lock]
    && (forall id, accepted :: Pushes(s'.log, lock, id, accepted) == Pushes(s.log, lock, id, accepted))
    && (forall id :: Holds(s', lock, id) ==> Holds(s, lock, id))
  }

  lemma NothingLeavesRun(s: State, lock: int)
    requires lock in s.runs
    ensures LeavesRun(s, s, lock)
  {
  }

  lemma ClaimStays(s: State, step: Step, c: Config, lock: int, id: Id)
    requires lock in s.runs
    ensures lock in Do(s, step, c).runs && Do(s, step, c).runs[lock] == s.runs[lock]
    ensures Holds(Do(s, step, c), lock, id) ==> Holds(s, lock, id)
  {
  }

  lemma PushesStay(s: State, step: Step, c: Config, lock: int, id: Id, accepted: bool)
    requires !(step.Send? && step.lock == lock)
    ensures Pushes(Do(s, step, c).log, lock, id, accepted) == Pushes(s.log, lock, id, accepted)
  {
    var s' := Do(s, step, c);
    hide Pushes;
    if |s'.log| > |s.log| {
      PushesSplit(s.log, s'.log[|s.log|], lock, id, accepted);
    }
  }

  /** A step that is not a send of this run leaves it alone. */
  lemma OthersLeaveRun(start: State, s: State, step: Step, c: Config, lock: int)
    requires lock in start.runs && LeavesRun(start, s, lock) && !(step.Send? && step.lock == lock)
    ensures LeavesRun(start, Do(s, step, c), lock) && lock in Do(s, step, c).runs
  {
    var s' := Do(s, step, c);
    hide Do, Pushes, Holds;
    ClaimStays(s, step, c, lock, Id(0, 0));
    forall id, accepted ensures Pushes(s'.log, lock, id, accepted) == Pushes(s.log, lock, id, accepted) {
      PushesStay(s, step, c, lock, id, accepted);
    }
    forall id ensures Holds(s', lock, id) ==> Holds(s, lock, id) {
      ClaimStays(s, step, c, lock, id);
    }
  }

  lemma JobStays(s: State, step: Step, c: Config, serial: nat)
    requires serial in s.jobs && serial < s.enqueued && step != InsertRows(serial)
    ensures var s' := Do(s, step, c); serial in s'.jobs && s'.jobs[serial] == s.jobs[serial] && serial < s'.enqueued
  {
  }

  /** One more push of one delivery of the run, with this answer. */
  ghost predicate Delivered(s: State, s': State, lock: int, id: Id, accepted: bool)
    requires lock in s.runs
  {
    && lock in s'.runs && s'.runs[lock] == s.runs[lock]
    && (forall i, a :: Pushes(s'.log, lock, i, a) ==
                       Pushes(s.log, lock, i, a) + if i == id && a == accepted then 1 else 0)
    && (forall i :: Holds(s', lock, i) ==> Holds(s, lock, i))
  }

  lemma DeliveredThenLeft(s: State, pushed: State, s': State, lock: int, id: Id, accepted: bool)
    requires lock in s.runs && Delivered(s, pushed, lock, id, accepted)
    requires lock in pushed.runs && LeavesRun(pushed, s', lock)
    ensures Delivered(s, s', lock, id, accepted) && lock in s'.runs
  {
    hide Pushes, Holds;
  }

  lemma LeavesRunTwice(s: State, middle: State, s': State, lock: int)
    requires lock in s.runs && LeavesRun(s, middle, lock) && lock in middle.runs && LeavesRun(middle, s', lock)
    ensures LeavesRun(s, s', lock) && lock in s'.runs
  {
    hide Pushes, Holds;
  }

  lemma RunIsTheSame(s: State, s': State, lock: int)
    requires lock in s.runs && LeavesRun(s, s', lock)
    ensures lock in s'.runs && s'.runs[lock] == s.runs[lock]
  {
  }

  lemma PushCounts(start: State, s: State, c: Config, lock: int, id: Id, accepted: bool)
    requires lock in start.runs && LeavesRun(start, s, lock)
    requires Inv(s, c) && lock in s.runs && id in s.runs[lock]
    ensures var s' := Do(s, Send(lock, id, accepted), c);
            lock in s'.runs && Delivered(start, s', lock, id, accepted)
  {
    assert ClaimedOk(s, lock, id);
    var s' := Do(s, Send(lock, id, accepted), c);
    hide Pushes;
    forall i, a
      ensures Pushes(s'.log, lock, i, a) == Pushes(s.log, lock, i, a) + if i == id && a == accepted then 1 else 0
    {
      PushesSplit(s.log, s'.log[|s.log|], lock, i, a);
    }
  }

  /** Either report ends the hold of its lock on the row and leaves the run alone otherwise. */
  lemma MarkReleases(start: State, s: State, step: Step, c: Config)
    requires step.MarkSent? || step.MarkFailed?
    requires step.lock in start.runs && LeavesRun(start, s, step.lock)
    ensures var s' := Do(s, step, c);
            step.lock in s'.runs && LeavesRun(start, s', step.lock) && !Holds(s', step.lock, step.id)
  {
    OthersLeaveRun(start, s, step, c, step.lock);
    hide LeavesRun;
  }

  /** A claim under a fresh token holds nothing but what it took, and sends nothing. */
  lemma ClaimTakesOnly(s: State, lock: int, chosen: set<Id>, c: Config, results: Id -> SendResult)
    requires Inv(s, c) && lock !in s.runs
    requires forall id, accepted :: Pushes(s.log, lock, id, accepted) == 0
    ensures var s' := Do(s, Claim(lock, chosen), c);
            lock in s'.runs && Progress(s', lock, s'.runs[lock].Keys, s'.runs[lock].Keys, results)
  {
    assert forall id :: id in s.deliveries ==> RowOk(s, id, c);
    hide Pushes;
  }

  lemma UnclaimedHasNotSent(s: State, step: Step, c: Config, lock: int)
    requires lock !in Do(s, step, c).runs
    ensures lock !in s.runs
    ensures forall id, accepted :: Pushes(Do(s, step, c).log, lock, id, accepted) == Pushes(s.log, lock, id, accepted)
  {
    var s' := Do(s, step, c);
    hide Pushes;
    forall id, accepted ensures Pushes(s'.log, lock, id, accepted) == Pushes(s.log, lock, id, accepted) {
      if |s'.log| > |s.log| {
        PushesSplit(s.log, s'.log[|s.log|], lock, id, accepted);
      }
    }
  }

  lemma {:induction false} FreshLockHasSentNothing(steps: seq<Step>, c: Config, lock: int)
    requires lock !in Run(steps, c).runs
    ensures forall id, accepted :: Pushes(Run(steps, c).log, lock, id, accepted) == 0
  {
    if steps != [] {
      hide Do, Pushes;
      UnclaimedHasNotSent(Run(steps[..|steps| - 1], c), steps[|steps| - 1], c, lock);
      FreshLockHasSentNothing(steps[..|steps| - 1], c, lock);
    }
  }
}
