/**
 * What each statement about push deliveries does to the rows, told from their
 * fields alone; and that no failed delivery is tried again too early.
 */
module FcmRules {
  import opened Backoff
  import opened Common
  import opened FcmQueue

  const HOUR_MS: nat := 3_600_000

  /** The delay after the first failure is the base, and every further failure doubles it, up to an hour. */
  lemma DelayDoubles(c: Config, attempts: nat)
    ensures RetryDelayMs(c, 0) == if c.retryBaseMs <= HOUR_MS then c.retryBaseMs else HOUR_MS
    ensures RetryDelayMs(c, attempts + 1) ==
            if 2 * RetryDelayMs(c, attempts) <= HOUR_MS then 2 * RetryDelayMs(c, attempts) else HOUR_MS
  {
    assert c.retryBaseMs * Pow2(attempts + 1) == 2 * (c.retryBaseMs * Pow2(attempts));
  }

  /**
   * A device that moves to another account loses the rows queued for it, and
   * no other row; then it is enabled for the account.
   */
  lemma RegisterRule(s: State, user: int, role: Option<int>, device: int, c: Config)
    ensures var s' := Do(s, RegisterToken(user, role, device), c);
            && s'.tokens == s.tokens[device := DeviceToken(user, role, true)]
            && s'.deliveries == (map id | id in s.deliveries
                 && !(&& id.device == device && device in s.tokens && s.tokens[device].user != user
                      && (s.deliveries[id].status == Pending || s.deliveries[id].status == Processing))
                 :: s.deliveries[id])
            && s'.jobs == s.jobs && s'.log == s.log
  {
  }

  /** Only the account itself signs a device off, and a rejected address is switched off; no row changes. */
  lemma SignOffRule(s: State, user: int, device: int, c: Config)
    requires device in s.tokens
    ensures Do(s, RemoveToken(user, device), c) ==
            s.(tokens := s.tokens[device :=
                 s.tokens[device].(enabled := s.tokens[device].enabled && s.tokens[device].user != user)])
    ensures Do(s, DisableToken(device), c) == s.(tokens := s.tokens[device := s.tokens[device].(enabled := false)])
  {
    assert s.tokens[device := s.tokens[device]] == s.tokens;
  }

  /** A notification is for the account's enabled devices, of the right role where both name one. */
  lemma SelectRule(s: State, user: int, notification: int, audience: Option<int>, device: int, c: Config)
    ensures var s' := Do(s, SelectTargets(user, notification, audience), c);
            && s.enqueued in s'.jobs && s'.enqueued == s.enqueued + 1
            && s'.jobs[s.enqueued].user == user && s'.jobs[s.enqueued].notification == notification
            && (device in s'.jobs[s.enqueued].targets <==>
                && device in s.tokens && s.tokens[device].user == user && s.tokens[device].enabled
                && (audience.Some? && s.tokens[device].role.Some? ==> audience.value == s.tokens[device].role.value))
            && s'.deliveries == s.deliveries && s'.tokens == s.tokens
  {
  }

  /** Every device read gets a row that is due at once, unless it has one for the notification; other rows stay. */
  lemma InsertRule(s: State, serial: nat, id: Id, c: Config)
    requires Inv(s, c) && serial in s.jobs
    ensures var s' := Do(s, InsertRows(serial), c); var job := s.jobs[serial];
            && (id in s'.deliveries <==>
                || id in s.deliveries
                || (&& id.serial == serial && id.device in job.targets
                    && forall other :: other in s.deliveries && other.device == id.device ==>
                         s.deliveries[other].notification != job.notification))
            && (id in s.deliveries ==> s'.deliveries[id] == s.deliveries[id])
            && (id in s'.deliveries && id !in s.deliveries ==>
                  s'.deliveries[id] == Delivery(job.notification, job.user, Pending, 0, s.now, None, None))
  {
    assert id in s.deliveries ==> RowOk(s, id, c);
    assert id in Fresh(s, serial, s.jobs[serial]) <==>
      id.serial == serial && id.device in Missing(s, s.jobs[serial]) by {
      assert id == Id(id.serial, id.device);
    }
  }

  /** A claim takes exactly those of the chosen rows that are due, or whose lock is older than permitted. */
  lemma ClaimRule(s: State, lock: int, chosen: set<Id>, id: Id, c: Config)
    requires Inv(s, c) && lock !in s.runs && id in s.deliveries
    ensures var s' := Do(s, Claim(lock, chosen), c); var d := s.deliveries[id];
            var taken := id in chosen && match d.status
                                         case Pending => d.nextAttemptAt <= s.now
                                         case Processing => d.lockedAt.Some? && s.now - d.lockedAt.value > c.lockMs
                                         case Sent => false
                                         case Failed => false;
            && lock in s'.runs && (id in s'.runs[lock] <==> taken)
            && s'.deliveries.Keys == s.deliveries.Keys
            && s'.deliveries[id] == if taken
                                    then d.(status := Processing, lockedAt := Some(s.now), lockToken := Some(lock))
                                    else d
  {
    assert RowOk(s, id, c);
  }

  /**
   * A report takes effect exactly on a row that carries the run's token. A failure
   * is counted; the last permitted or a permanent one is final, any other puts the
   * row off by the retry delay.
   */
  lemma ReportRule(s: State, lock: int, id: Id, retryable: bool, c: Config)
    ensures var held := id in s.deliveries && s.deliveries[id].lockToken == Some(lock);
            && (!held ==> Do(s, MarkSent(lock, id), c) == Do(s, MarkFailed(lock, id, retryable), c) == s)
            && (held ==>
                  var d := s.deliveries[id]; var failures := d.attempts + 1;
                  && Do(s, MarkSent(lock, id), c) == s.(deliveries := s.deliveries[id :=
                       Delivery(d.notification, d.recipient, Sent, d.attempts, d.nextAttemptAt, None, None)])
                  && Do(s, MarkFailed(lock, id, retryable), c) == s.(log := s.log + [FailedTry(lock, id)],
                       deliveries := s.deliveries[id :=
                         if retryable && failures < c.maxAttempts
                         then Delivery(d.notification, d.recipient, Pending, failures,
                                       s.now + RetryDelayMs(c, d.attempts), None, None)
                         else Delivery(d.notification, d.recipient, Failed, failures, s.now, None, None)]))
  {
    hide RetryDelayMs;
  }

  // ---- Retries ----

  ghost predicate SameRow(s: State, s': State, id: Id) {
    id in s.deliveries && id in s'.deliveries && s.deliveries[id] == s'.deliveries[id]
  }

  /** The failure that left a row as it is: its holder's report, after which it has not changed. */
  ghost predicate FailedAt(steps: seq<Step>, c: Config, i: int, id: Id) {
    && 0 <= i < |steps| && steps[i].MarkFailed? && steps[i].id == id && steps[i].retryable
    && (forall j :: i < j <= |steps| ==> SameRow(Run(steps[..j], c), Run(steps, c), id))
    && id in Run(steps[..i], c).deliveries
    && Run(steps[..i], c).deliveries[id].lockToken == Some(steps[i].lock)
  }

  /** A pending row is new, as it was, or put off by a failure that may be retried. */
  lemma PendingBefore(s: State, step: Step, c: Config, id: Id)
    requires Inv(s, c) && id in Do(s, step, c).deliveries && Do(s, step, c).deliveries[id].status == Pending
    ensures var d := Do(s, step, c).deliveries[id];
            || SameRow(s, Do(s, step, c), id)
            || (id !in s.deliveries && d.attempts == 0)
            || (&& step.MarkFailed? && step.id == id && step.retryable && d.attempts >= 1
                && id in s.deliveries && s.deliveries[id].lockToken == Some(step.lock)
                && d.nextAttemptAt == s.now + RetryDelayMs(c, d.attempts - 1))
  {
    hide RetryDelayMs, Claimable, AlreadyQueued;
    assert id in s.deliveries ==> RowOk(s, id, c);
  }

  lemma {:induction false} FailuresAreRemembered(steps: seq<Step>, c: Config, id: Id) returns (i: int)
    requires id in Run(steps, c).deliveries && Run(steps, c).deliveries[id].status == Pending
    requires Run(steps, c).deliveries[id].attempts > 0
    ensures FailedAt(steps, c, i, id)
    ensures var d := Run(steps, c).deliveries[id];
            d.nextAttemptAt == Run(steps[..i], c).now + RetryDelayMs(c, d.attempts - 1)
  {
    hide Do, Inv, RetryDelayMs;
    assert steps != [] by { assert INITIAL.deliveries == map[]; }
    var n := |steps| - 1;
    var before := Run(steps[..n], c);
    assert steps[..|steps|] == steps;
    RunKeepsInv(steps[..n], c);
    PendingBefore(before, steps[n], c, id);
    if SameRow(before, Run(steps, c), id) {
      i := FailuresAreRemembered(steps[..n], c, id);
      forall j | i < j <= |steps| ensures SameRow(Run(steps[..j], c), Run(steps, c), id) {
        if j <= n {
          assert steps[..n][..j] == steps[..j];
          assert SameRow(Run(steps[..n][..j], c), before, id);
        }
      }
      assert steps[..n][..i] == steps[..i];
    } else {
      i := n;
    }
  }

  /** In every schedule: a delivery that failed is not claimed again before the delay after its last failure is over. */
  lemma NoRetryBeforeTheDelay(steps: seq<Step>, c: Config, lock: int, chosen: set<Id>, id: Id)
    requires lock !in Run(steps, c).runs
    requires id in Run(steps, c).deliveries && Run(steps, c).deliveries[id].status == Pending
    requires Run(steps, c).deliveries[id].attempts > 0
    requires id in Do(Run(steps, c), Claim(lock, chosen), c).deliveries
    requires Do(Run(steps, c), Claim(lock, chosen), c).deliveries[id].status == Processing
    ensures exists i :: && FailedAt(steps, c, i, id)
                        && Run(steps, c).now >= Run(steps[..i], c).now
                             + RetryDelayMs(c, Run(steps, c).deliveries[id].attempts - 1)
  {
    RunKeepsInv(steps, c);
    ClaimRule(Run(steps, c), lock, chosen, id, c);
    var i := FailuresAreRemembered(steps, c, id);
    hide Run, Do, Inv, RetryDelayMs, FailedAt;
  }
}
