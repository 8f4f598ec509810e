/**
 * Deleting stored objects in the background. Any number of workers share one
 * table of tasks; a worker claims rows under a fresh token, may crash, and may
 * find its rows taken over once its lock is stale. One step is one statement.
 */
module StorageLease {
  import opened Backoff
  import opened Common

  datatype Status = Pending | Failed | Processing | Completed

  datatype Task = Task(status: Status, attempts: nat, nextAttemptAt: int, lockedAt: Option<int>, lockToken: Option<int>)

  /**
   * A run of the worker: the moment it read the clock, the rows it found
   * claimable, and, once it has read them back, the claimed rows with the
   * attempts they showed.
   */
  datatype Worker = Worker(now: int, candidates: set<int>, claimed: Option<map<int, nat>>)

  /** An outcome that took effect. */
  datatype Event = Event(token: int, task: int, succeeded: bool)

  datatype State = State(now: int, tasks: map<int, Task>, workers: map<int, Worker>, log: seq<Event>)

  datatype Config = Config(lockTimeoutMs: nat, retryBaseSeconds: nat)

  datatype Step =
    | Wait(ms: nat)
    | Enqueue(task: int)
    | FindCandidates(token: int, chosen: set<int>)
    | ClaimCandidates(token: int)
    | ReadClaimed(token: int)
    | MarkCompleted(token: int, task: int)
    | MarkFailed(token: int, task: int)

  const INITIAL: State := State(0, map[], map[], [])

  // ---- Retry delay ----

  function DelaySeconds(retryBaseSeconds: nat, attempts: nat): nat
    requires attempts >= 1
  {
    var doublings := if attempts - 1 < 8 then attempts - 1 else 8;
    var delay := retryBaseSeconds * Pow2(doublings);
    if delay < 86_400 then delay else 86_400
  }

  /** The delay never shrinks from one failure to the next, never exceeds a day, and stops growing after nine. */
  lemma DelayGrowsToADay(base: nat, m: nat, n: nat)
    requires 1 <= m <= n
    ensures DelaySeconds(base, m) <= DelaySeconds(base, n) <= 86_400
    ensures m >= 9 ==> DelaySeconds(base, m) == DelaySeconds(base, n)
    ensures DelaySeconds(base, 1) == if base < 86_400 then base else 86_400
  {
    hide Pow2;
    var a, b := if m - 1 < 8 then m - 1 else 8, if n - 1 < 8 then n - 1 else 8;
    Pow2Monotone(a, b);
    ScaleKeepsOrder(base, Pow2(a), Pow2(b));
    assert Pow2(0) == 1 by { OneIsPow2(); }
  }

  // ---- Steps ----

  predicate Claimable(t: Task, now: int, c: Config) {
    || ((t.status.Pending? || t.status.Failed?) && t.nextAttemptAt <= now)
    || (t.status.Processing? && t.lockedAt.Some? && t.lockedAt.value <= now - c.lockTimeoutMs)
  }

  /** A row that the worker took, as it was when the worker read it back. */
  predicate TookIt(s: State, token: int, task: int) {
    && token in s.workers && s.workers[token].claimed.Some?
    && task in s.workers[token].claimed.value && task in s.tasks
  }

  predicate StillHolds(s: State, token: int, task: int) {
    task in s.tasks && s.tasks[task].status.Processing? && s.tasks[task].lockToken == Some(token)
  }

  /** The effect of one statement; a step that cannot happen now has none. */
  function Do(s: State, step: Step, c: Config): State {
    match step
    case Wait(ms) => s.(now := s.now + ms)
    case Enqueue(task) =>
      if task in s.tasks then s
      else s.(tasks := s.tasks[task := Task(Pending, 0, s.now, None, None)])
    case FindCandidates(token, chosen) =>
      // Any part of the claimable rows: the batch size and the order decide which.
      if token in s.workers then s
      else s.(workers := s.workers[token := Worker(s.now,
                (set id | id in chosen && id in s.tasks && Claimable(s.tasks[id], s.now, c)), None)])
    case ClaimCandidates(token) =>
      if token !in s.workers || s.workers[token].claimed.Some? then s
      else
        var w := s.workers[token];
        s.(tasks := map id | id in s.tasks ::
             if id in w.candidates && Claimable(s.tasks[id], w.now, c)
             then s.tasks[id].(status := Processing, lockedAt := Some(w.now), lockToken := Some(token))
             else s.tasks[id])
    case ReadClaimed(token) =>
      if token !in s.workers || s.workers[token].claimed.Some? then s
      else s.(workers := s.workers[token := s.workers[token].(claimed :=
                Some(map id | id in s.tasks && StillHolds(s, token, id) :: s.tasks[id].attempts))])
    case MarkCompleted(token, task) =>
      if TookIt(s, token, task) && StillHolds(s, token, task) then
        var t := s.tasks[task];
        s.(tasks := s.tasks[task := t.(status := Completed, attempts := t.attempts + 1,
                                       lockedAt := None, lockToken := None)],
           log := s.log + [Event(token, task, true)])
      else s
    case MarkFailed(token, task) =>
      // The count is written from what the worker read when it claimed the row.
      if TookIt(s, token, task) && StillHolds(s, token, task) then
        var attempts := s.workers[token].claimed.value[task] + 1;
        s.(tasks := s.tasks[task := Task(Failed, attempts, s.now + DelaySeconds(c.retryBaseSeconds, attempts) * 1000,
                                         None, None)],
           log := s.log + [Event(token, task, false)])
      else s
  }

  /** The state after any schedule of statements of any workers. */
  function Run(steps: seq<Step>, c: Config): State {
    if steps == [] then INITIAL else Do(Run(steps[..|steps| - 1], c), steps[|steps| - 1], c)
  }

  // ---- What must hold ----

  function CountFor(log: seq<Event>, task: int): nat {
    if log == [] then 0
    else CountFor(log[..|log| - 1], task) + (if log[|log| - 1].task == task then 1 else 0)
  }

  ghost predicate TaskOk(s: State, id: int)
    requires id in s.tasks
  {
    var t := s.tasks[id];
    && (t.status.Processing? <==> t.lockToken.Some?)
    && (t.lockToken.Some? <==> t.lockedAt.Some?)
    && (t.lockToken.Some? ==> t.lockToken.value in s.workers)
    && t.attempts == CountFor(s.log, id)
  }

  ghost predicate TasksOk(s: State) {
    && (forall id :: id in s.tasks ==> TaskOk(s, id))
    && (forall i :: 0 <= i < |s.log| ==> s.log[i].task in s.tasks && s.log[i].token in s.workers)
  }

  /** What a worker read about a row it still holds is still so. */
  ghost predicate SnapshotsOk(s: State) {
    forall token, id :: TookIt(s, token, id) && StillHolds(s, token, id) ==>
      s.workers[token].claimed.value[id] == s.tasks[id].attempts
  }

  /** A run has at most one effective outcome for a row, and loses the row with it. */
  ghost predicate OutcomesOk(s: State) {
    && (forall i, j :: 0 <= i < j < |s.log| ==>
          s.log[i].token != s.log[j].token || s.log[i].task != s.log[j].task)
    && (forall i :: 0 <= i < |s.log| ==>
          && !StillHolds(s, s.log[i].token, s.log[i].task)
          && s.log[i].token in s.workers && s.workers[s.log[i].token].claimed.Some?)
  }

  ghost predicate Inv(s: State) {
    TasksOk(s) && SnapshotsOk(s) && OutcomesOk(s)
  }

  lemma {:induction false} CountSplit(log: seq<Event>, e: Event, task: int)
    ensures CountFor(log + [e], task) == CountFor(log, task) + (if e.task == task then 1 else 0)
  {
    assert (log + [e])[..|log|] == log;
  }

  lemma {:induction false} NoneCounted(log: seq<Event>, task: int)
    requires forall i :: 0 <= i < |log| ==> log[i].task != task
    ensures CountFor(log, task) == 0
  {
    if log != [] {
      NoneCounted(log[..|log| - 1], task);
    }
  }

  /** An outcome writes one more attempt than the row had, also when the count comes from an earlier reading. */
  lemma OutcomeCounted(s: State, step: Step, c: Config)
    requires Inv(s) && (step.MarkCompleted? || step.MarkFailed?)
    requires TookIt(s, step.token, step.task) && StillHolds(s, step.token, step.task)
    ensures Do(s, step, c).tasks[step.task].attempts == s.tasks[step.task].attempts + 1
    ensures Do(s, step, c).log == s.log + [Event(step.token, step.task, step.MarkCompleted?)]
  {
  }

  lemma OutcomeKeepsTasks(s: State, step: Step, c: Config)
    requires Inv(s) && (step.MarkCompleted? || step.MarkFailed?)
    ensures TasksOk(Do(s, step, c))
  {
    var s' := Do(s, step, c);
    if TookIt(s, step.token, step.task) && StillHolds(s, step.token, step.task) {
      OutcomeCounted(s, step, c);
      forall id | id in s'.tasks ensures TaskOk(s', id) {
        assert TaskOk(s, id);
        CountSplit(s.log, s'.log[|s.log|], id);
      }
    }
  }

  lemma StepKeepsTasks(s: State, step: Step, c: Config)
    requires Inv(s)
    ensures TasksOk(Do(s, step, c))
  {
    var s' := Do(s, step, c);
    if step.MarkCompleted? || step.MarkFailed? {
      OutcomeKeepsTasks(s, step, c);
    } else {
      forall id | id in s'.tasks ensures TaskOk(s', id) {
        if id in s.tasks {
          assert TaskOk(s, id);
        } else {
          NoneCounted(s.log, id);
        }
      }
    }
  }

  lemma StepKeepsSnapshots(s: State, step: Step, c: Config)
    requires Inv(s)
    ensures SnapshotsOk(Do(s, step, c))
  {
    var s' := Do(s, step, c);
    forall token, id | TookIt(s', token, id) && StillHolds(s', token, id)
      ensures s'.workers[token].claimed.value[id] == s'.tasks[id].attempts
    {
      if id in s.tasks {
        assert TaskOk(s, id);
      }
    }
  }

  lemma StepKeepsOutcomes(s: State, step: Step, c: Config)
    requires Inv(s)
    ensures OutcomesOk(Do(s, step, c))
  {
    var s' := Do(s, step, c);
    forall i | 0 <= i < |s.log|
      ensures !StillHolds(s', s.log[i].token, s.log[i].task)
      ensures s.log[i].token in s'.workers && s'.workers[s.log[i].token].claimed.Some?
    {
      var e := s.log[i];
      assert !StillHolds(s, e.token, e.task);
      assert TaskOk(s, e.task);
    }
  }

  lemma {:induction false} RunKeepsInv(steps: seq<Step>, c: Config)
    ensures Inv(Run(steps, c))
  {
    if steps != [] {
      var before, step := Run(steps[..|steps| - 1], c), steps[|steps| - 1];
      RunKeepsInv(steps[..|steps| - 1], c);
      hide Do;
      StepKeepsTasks(before, step, c);
      StepKeepsSnapshots(before, step, c);
      StepKeepsOutcomes(before, step, c);
    }
  }

  // ---- Main results ----

  /**
   * In every schedule: a row is being processed exactly when it carries a token,
   * its attempts are exactly the outcomes that took effect for it, and no run
   * ever has two effective outcomes for the same row.
   */
  lemma AttemptsCountOutcomes(steps: seq<Step>, c: Config, id: int)
    requires id in Run(steps, c).tasks
    ensures var s := Run(steps, c); var t := s.tasks[id];
            && (t.status == Processing <==> t.lockToken.Some?)
            && t.attempts == CountFor(s.log, id)
            && forall i, j :: 0 <= i < j < |s.log| && s.log[i].task == s.log[j].task ==>
                  s.log[i].token != s.log[j].token
  {
    RunKeepsInv(steps, c);
    assert TaskOk(Run(steps, c), id);
  }

  /** An outcome is only ever written by the run whose token the row carries at that moment. */
  lemma {:induction false} OnlyTheHolderDecides(steps: seq<Step>, c: Config, step: Step, id: int)
    requires id in Run(steps, c).tasks
    ensures var s := Run(steps, c); var s' := Do(s, step, c); var t, t' := s.tasks[id], s'.tasks[id];
            && (t'.attempts != t.attempts || t'.status !in {t.status, Processing} ==>
                  && (step.MarkCompleted? || step.MarkFailed?) && step.task == id && t.lockToken == Some(step.token)
                  && t'.attempts == t.attempts + 1 && t'.lockToken == None
                  && t'.status == if step.MarkCompleted? then Completed else Failed)
            && (t'.status == Processing && t' != t ==>
                  && step.ClaimCandidates? && t'.lockToken == Some(step.token)
                  && Claimable(t, s.workers[step.token].now, c))
  {
    RunKeepsInv(steps, c);
    if step.MarkCompleted? || step.MarkFailed? {
      var s := Run(steps, c);
      if TookIt(s, step.token, step.task) && StillHolds(s, step.token, step.task) {
        OutcomeCounted(s, step, c);
      }
    }
  }

  /** Carrying a schedule on from a state. */
  function After(s: State, steps: seq<Step>, c: Config): State
    decreases |steps|
  {
    if steps == [] then s else After(Do(s, steps[0], c), steps[1..], c)
  }

  /** A completed row never changes again, whatever is done in whatever order. */
  lemma {:induction false} CompletedIsFinal(s: State, steps: seq<Step>, c: Config, id: int)
    requires id in s.tasks && s.tasks[id].status == Completed
    ensures id in After(s, steps, c).tasks && After(s, steps, c).tasks[id] == s.tasks[id]
    decreases |steps|
  {
    if steps != [] {
      CompletedIsFinal(Do(s, steps[0], c), steps[1..], c, id);
    }
  }

  // ---- When rows are due ----

  const DOUBLINGS: seq<nat> := [1, 2, 4, 8, 16, 32, 64, 128, 256]

  /** The base delay doubled with every attempt after the first, eight times at most, and never more than a day. */
  function BackoffSeconds(base: nat, attempts: nat): nat
    requires attempts >= 1
  {
    var seconds := base * DOUBLINGS[if attempts <= 9 then attempts - 1 else 8];
    if seconds <= 86_400 then seconds else 86_400
  }

  lemma DelayIsBackoff(base: nat, attempts: nat)
    requires attempts >= 1
    ensures DelaySeconds(base, attempts) == BackoffSeconds(base, attempts)
  {
    var n := if attempts <= 9 then attempts - 1 else 8;
    DoublingsArePowers();
    assert Pow2(n) == DOUBLINGS[n];
    hide Pow2;
  }

  lemma DoublingsArePowers()
    ensures forall n :: 0 <= n < |DOUBLINGS| ==> Pow2(n) == DOUBLINGS[n]
  {
    assert Pow2(1) == 2 && Pow2(2) == 4 && Pow2(3) == 8 && Pow2(4) == 16;
    assert Pow2(5) == 32 && Pow2(6) == 64 && Pow2(7) == 128 && Pow2(8) == 256;
  }

  /**
   * An outcome takes effect exactly on a row that is still held:
   * completed for good, or due again after the backoff.
   */
  lemma OutcomeRule(s: State, token: int, task: int, c: Config)
    requires Inv(s) && token in s.workers && s.workers[token].claimed.Some?
    requires task in s.workers[token].claimed.value
    ensures var held := task in s.tasks && s.tasks[task].status == Processing && s.tasks[task].lockToken == Some(token);
            && (!held ==> Do(s, MarkCompleted(token, task), c) == Do(s, MarkFailed(token, task), c) == s)
            && (held ==>
                  var attempts := s.tasks[task].attempts + 1;
                  && Do(s, MarkCompleted(token, task), c) == s.(log := s.log + [Event(token, task, true)],
                       tasks := s.tasks[task := Task(Completed, attempts, s.tasks[task].nextAttemptAt, None, None)])
                  && Do(s, MarkFailed(token, task), c) == s.(log := s.log + [Event(token, task, false)],
                       tasks := s.tasks[task := Task(Failed, attempts,
                         s.now + 1000 * BackoffSeconds(c.retryBaseSeconds, attempts), None, None)]))
  {
    if StillHolds(s, token, task) {
      assert TookIt(s, token, task);
      DelayIsBackoff(c.retryBaseSeconds, s.tasks[task].attempts + 1);
    }
    hide DelaySeconds, BackoffSeconds;
  }

  /** Due, or left behind by a run whose lock is older than the timeout. */
  predicate IsFree(t: Task, now: int, c: Config) {
    match t.status
    case Pending => t.nextAttemptAt <= now
    case Failed => t.nextAttemptAt <= now
    case Processing => t.lockedAt.Some? && now - t.lockedAt.value >= c.lockTimeoutMs
    case Completed => false
  }

  /** A row comes in pending, not tried and due at once; one that is there already stays as it is. */
  lemma EnqueueRule(s: State, task: int, other: int, c: Config)
    ensures var tasks := Do(s, Enqueue(task), c).tasks;
            && task in tasks && (other != task ==> (other in tasks <==> other in s.tasks))
            && (task !in s.tasks ==> tasks[task] == Task(Pending, 0, s.now, None, None))
            && (other in s.tasks ==> tasks[other] == s.tasks[other])
  {
  }

  /** A worker reads back, once, exactly the rows that are under its token, with their attempts. */
  lemma ReadBackRule(s: State, token: int, id: int, c: Config)
    requires token in s.workers && s.workers[token].claimed.None?
    ensures var s' := Do(s, ReadClaimed(token), c);
            && s'.tasks == s.tasks && token in s'.workers && s'.workers[token].claimed.Some?
            && Do(s', ReadClaimed(token), c) == s'
            && var read := s'.workers[token].claimed.value;
               && (id in read <==>
                     id in s.tasks && s.tasks[id].status == Processing && s.tasks[id].lockToken == Some(token))
               && (id in read ==> read[id] == s.tasks[id].attempts)
  {
  }

  /** A claim takes exactly those of the rows found that are free when it is made, and leaves every other row alone. */
  lemma ClaimRule(s: State, token: int, chosen: set<int>, id: int, c: Config)
    requires id in s.tasks
    ensures token !in s.workers ==>
              var s' := Do(s, FindCandidates(token, chosen), c);
              && token in s'.workers && s'.workers[token].now == s.now && s'.workers[token].claimed.None?
              && (id in s'.workers[token].candidates <==> id in chosen && IsFree(s.tasks[id], s.now, c))
    ensures token in s.workers && s.workers[token].claimed.None? ==>
              var w := s.workers[token]; var s' := Do(s, ClaimCandidates(token), c);
              && s'.tasks.Keys == s.tasks.Keys
              && s'.tasks[id] == if id in w.candidates && IsFree(s.tasks[id], w.now, c)
                                 then s.tasks[id].(status := Processing, lockedAt := Some(w.now),
                                                   lockToken := Some(token))
                                 else s.tasks[id]
  {
  }

  /** The failure that left a row as it is: it was held then, and has not changed since. */
  ghost predicate FailedAt(steps: seq<Step>, c: Config, i: int, id: int) {
    && 0 <= i < |steps| && steps[i].MarkFailed? && steps[i].task == id
    && (forall j :: i < j <= |steps| ==> SameRow(Run(steps[..j], c), Run(steps, c), id))
    && id in Run(steps[..i], c).tasks && Run(steps[..i], c).tasks[id].lockToken == Some(steps[i].token)
  }

  ghost predicate SameRow(s: State, s': State, id: int) {
    id in s.tasks && id in s'.tasks && s.tasks[id] == s'.tasks[id]
  }

  /** A row fails only by its holder's report, and is then due after the backoff. */
  lemma FailedBefore(s: State, step: Step, c: Config, id: int)
    requires Inv(s) && id in Do(s, step, c).tasks && Do(s, step, c).tasks[id].status == Failed
    ensures var t := Do(s, step, c).tasks[id];
            || SameRow(s, Do(s, step, c), id)
            || (&& step.MarkFailed? && step.task == id && t.attempts >= 1
                && id in s.tasks && s.tasks[id].lockToken == Some(step.token)
                && t.nextAttemptAt == s.now + 1000 * BackoffSeconds(c.retryBaseSeconds, t.attempts))
  {
    if step.MarkFailed? && TookIt(s, step.token, step.task) && StillHolds(s, step.token, step.task) {
      DelayIsBackoff(c.retryBaseSeconds, s.tasks[step.task].attempts + 1);
    }
    hide DelaySeconds, BackoffSeconds, Claimable;
  }

  lemma {:induction false} FailuresAreRemembered(steps: seq<Step>, c: Config, id: int) returns (i: int)
    requires id in Run(steps, c).tasks && Run(steps, c).tasks[id].status == Failed
    ensures FailedAt(steps, c, i, id)
    ensures var t := Run(steps, c).tasks[id];
            t.attempts >= 1 && t.nextAttemptAt == Run(steps[..i], c).now
                                                   + 1000 * BackoffSeconds(c.retryBaseSeconds, t.attempts)
  {
    hide Do, Inv, BackoffSeconds;
    assert steps != [] by { assert INITIAL.tasks == map[]; }
    var n := |steps| - 1;
    var before := Run(steps[..n], c);
    assert steps[..|steps|] == steps;
    RunKeepsInv(steps[..n], c);
    FailedBefore(before, steps[n], c, id);
    if SameRow(before, Run(steps, c), id) {
      i := FailuresAreRemembered(steps[..n], c, id);
      forall j | i < j <= |steps| ensures SameRow(Run(steps[..j], c), Run(steps, c), id) {
        if j <= n {
          assert steps[..n][..j] == steps[..j];
          assert SameRow(Run(steps[..n][..j], c), before, id);
        }
      }
      assert steps[..n][..i] == steps[..i];
    } else {
      i := n;
    }
  }

  lemma {:induction false} ClocksAreBehind(steps: seq<Step>, c: Config, token: int)
    requires token in Run(steps, c).workers
    ensures Run(steps, c).workers[token].now <= Run(steps, c).now
  {
    if steps != [] {
      var before := Run(steps[..|steps| - 1], c);
      if token in before.workers {
        ClocksAreBehind(steps[..|steps| - 1], c, token);
      }
      hide Claimable, DelaySeconds;
    }
  }

  /**
   * Whatever workers do in whatever order: a failed row is not claimed
   * again before the backoff after its failure is over.
   */
  lemma NoRetryBeforeTheBackoff(steps: seq<Step>, c: Config, step: Step, id: int)
    requires id in Run(steps, c).tasks && Run(steps, c).tasks[id].status == Failed
    requires Do(Run(steps, c), step, c).tasks[id] != Run(steps, c).tasks[id]
    ensures step.ClaimCandidates? && Run(steps, c).tasks[id].attempts >= 1
    ensures exists i :: && FailedAt(steps, c, i, id)
                        && Run(steps, c).now >= Run(steps[..i], c).now
                             + 1000 * BackoffSeconds(c.retryBaseSeconds, Run(steps, c).tasks[id].attempts)
  {
    var s := Run(steps, c);
    OnlyClaimsChangeFailed(s, step, c, id);
    var i := FailuresAreRemembered(steps, c, id);
    ClocksAreBehind(steps, c, step.token);
    hide Run, Do, BackoffSeconds, FailedAt;
  }

  lemma OnlyClaimsChangeFailed(s: State, step: Step, c: Config, id: int)
    requires id in s.tasks && s.tasks[id].status == Failed
    ensures id in Do(s, step, c).tasks
    ensures Do(s, step, c).tasks[id] != s.tasks[id] ==>
              && step.ClaimCandidates? && step.token in s.workers
              && s.tasks[id].nextAttemptAt <= s.workers[step.token].now
  {
    hide DelaySeconds;
  }

  /** While the lock of a row is not stale for the run that claims, nobody else gets it. */
  lemma FreshLocksAreKept(s: State, step: Step, c: Config, id: int)
    requires id in s.tasks && s.tasks[id].status == Processing && s.tasks[id].lockedAt.Some?
    requires step.ClaimCandidates? && step.token in s.workers
    requires s.workers[step.token].now - s.tasks[id].lockedAt.value < c.lockTimeoutMs
    ensures Do(s, step, c).tasks[id] == s.tasks[id]
  {
  }

  // ---- The worker ----

  datatype UploadAnswer = Answer(text: string) | Throws

  function LowerChar(ch: char): char {
    if 'A' <= ch <= 'Z' then (ch as int + 32) as char else ch
  }

  /** Each of the capital letters A to Z by the small one in its place of the alphabet, the rest as it is. */
  function Lower(text: string): (r: string)
    ensures |r| == |text|
    ensures forall i :: 0 <= i < |text| ==>
              r[i] as int - text[i] as int == if 'A' <= text[i] <= 'Z' then 'a' as int - 'A' as int else 0
  {
    if text == [] then [] else [LowerChar(text[0])] + Lower(text[1..])
  }

  /** What is written about a row: completed only for one of the two good answers, and if writing it does not throw. */
  function Outcome(token: int, task: int, answer: UploadAnswer, completionThrows: bool): Step {
    match answer
    case Throws => MarkFailed(token, task)
    case Answer(text) =>
      if (Lower(text) == "ok" || Lower(text) == "not found") && !completionThrows
      then MarkCompleted(token, task) else MarkFailed(token, task)
  }

  function SuccessesOf(log: seq<Event>, token: int): nat {
    if log == [] then 0
    else SuccessesOf(log[..|log| - 1], token)
         + (if log[|log| - 1].token == token && log[|log| - 1].succeeded then 1 else 0)
  }

  predicate Concerns(step: Step, token: int) {
    && !step.Wait? && !step.Enqueue? && step.token == token
  }

  predicate NoneConcerns(steps: seq<Step>, token: int) {
    forall i :: 0 <= i < |steps| ==> !Concerns(steps[i], token)
  }

  /** A row under this token. */
  predicate Carries(s: State, token: int, id: int) {
    id in s.tasks && s.tasks[id].lockToken == Some(token)
  }

  /** What a run has found and completed stays the same, and it gets no further row. */
  ghost predicate LeavesRun(s: State, s': State, token: int)
    requires token in s.workers
  {
    && token in s'.workers && s'.workers[token] == s.workers[token]
    && SuccessesOf(s'.log, token) == SuccessesOf(s.log, token)
    && forall id: int :: Carries(s', token, id) ==> Carries(s, token, id)
  }

  lemma NothingLeavesRun(s: State, token: int)
    requires token in s.workers
    ensures LeavesRun(s, s, token)
  {
  }

  lemma {:induction false} SuccessesSplit(log: seq<Event>, e: Event, token: int)
    ensures SuccessesOf(log + [e], token) == SuccessesOf(log, token) + if e.token == token && e.succeeded then 1 else 0
  {
    assert (log + [e])[..|log|] == log;
  }

  lemma OtherStep(s: State, step: Step, c: Config, token: int, id: int)
    requires token in s.workers && !Concerns(step, token)
    ensures var s' := Do(s, step, c);
            && token in s'.workers && s'.workers[token] == s.workers[token]
            && SuccessesOf(s'.log, token) == SuccessesOf(s.log, token)
            && (Carries(s', token, id) ==> Carries(s, token, id))
  {
    var s' := Do(s, step, c);
    hide SuccessesOf, Claimable, DelaySeconds;
    if |s'.log| > |s.log| {
      SuccessesSplit(s.log, s'.log[|s.log|], token);
    }
  }

  /** A step of another run, or of none, leaves a run alone. */
  lemma OthersLeaveRun(start: State, s: State, step: Step, c: Config, token: int)
    requires token in start.workers && LeavesRun(start, s, token) && !Concerns(step, token)
    ensures token in Do(s, step, c).workers && LeavesRun(start, Do(s, step, c), token)
  {
    hide Do, SuccessesOf, Carries;
    OtherStep(s, step, c, token, 0);
    forall id: int ensures Carries(Do(s, step, c), token, id) ==> Carries(s, token, id) {
      OtherStep(s, step, c, token, id);
    }
  }

  /** The outcome of a row that was read back: written if the row is still held, and the row is not held any more. */
  lemma OutcomeEndsHold(s: State, step: Step, c: Config)
    requires Inv(s) && (step.MarkCompleted? || step.MarkFailed?)
    requires step.token in s.workers && s.workers[step.token].claimed.Some?
    requires step.task in s.workers[step.token].claimed.value
    ensures var s' := Do(s, step, c);
            && step.token in s'.workers && s'.workers[step.token] == s.workers[step.token]
            && SuccessesOf(s'.log, step.token) == SuccessesOf(s.log, step.token)
                 + (if step.MarkCompleted? && StillHolds(s, step.token, step.task) then 1 else 0)
            && !Carries(s', step.token, step.task)
            && (forall id: int :: Carries(s', step.token, id) ==> Carries(s, step.token, id))
  {
    var s' := Do(s, step, c);
    hide SuccessesOf, DelaySeconds;
    assert step.task in s.tasks ==> TaskOk(s, step.task);
    if |s'.log| > |s.log| {
      SuccessesSplit(s.log, s'.log[|s.log|], step.token);
    }
  }

  /** The table of deletion tasks; `history` is the schedule of statements so far. */
  class ObjectStorageDeletion {
    const config: Config
    var now: int
    var tasks: map<int, Task>
    var workers: map<int, Worker>
    ghost var log: seq<Event>
    ghost var history: seq<Step>

    ghost function Snapshot(): State
      reads this
    {
      State(now, tasks, workers, log)
    }

    ghost predicate Valid()
      reads this
    {
      Snapshot() == Run(history, config)
    }

    constructor (config: Config)
      ensures Valid() && history == [] && this.config == config
    {
      this.config := config;
      now, tasks, workers, log, history := 0, map[], map[], [], [];
    }

    ghost method Record(step: Step)
      modifies this`history
      ensures history == old(history) + [step]
      ensures Run(history, config) == Do(Run(old(history), config), step, config)
    {
      history := history + [step];
      assert history[..|history| - 1] == old(history);
    }

    /** One statement of some worker. */
    method Apply(step: Step)
      requires Valid()
      modifies this
      ensures Valid() && history == old(history) + [step]
      ensures Snapshot() == Do(old(Snapshot()), step, config)
    {
      Record(step);
      match step {
        case Wait(ms) => now := now + ms;
        case Enqueue(task) =>
          if task !in tasks {
            tasks := tasks[task := Task(Pending, 0, now, None, None)];
          }
        case FindCandidates(token, chosen) =>
          if token !in workers {
            var candidates := set id | id in chosen && id in tasks && Claimable(tasks[id], now, config);
            workers := workers[token := Worker(now, candidates, None)];
          }
        case ClaimCandidates(token) =>
          if token in workers && workers[token].claimed.None? {
            var w := workers[token];
            tasks := map id | id in tasks ::
              if id in w.candidates && Claimable(tasks[id], w.now, config)
              then tasks[id].(status := Processing, lockedAt := Some(w.now), lockToken := Some(token))
              else tasks[id];
          }
        case ReadClaimed(token) =>
          if token in workers && workers[token].claimed.None? {
            var claimed := map id | id in tasks && tasks[id].status == Processing && tasks[id].lockToken == Some(token)
              :: tasks[id].attempts;
            assert claimed == map id | id in tasks && StillHolds(old(Snapshot()), token, id) :: tasks[id].attempts;
            workers := workers[token := workers[token].(claimed := Some(claimed))];
          }
        case MarkCompleted(token, task) =>
          if Holds(token, task) {
            tasks := tasks[task := tasks[task].(status := Completed, attempts := tasks[task].attempts + 1,
                                                lockedAt := None, lockToken := None)];
            log := log + [Event(token, task, true)];
          }
        case MarkFailed(token, task) =>
          if Holds(token, task) {
            var attempts := workers[token].claimed.value[task] + 1;
            var nextAttemptAt := now + DelaySeconds(config.retryBaseSeconds, attempts) * 1000;
            tasks := tasks[task := Task(Failed, attempts, nextAttemptAt, None, None)];
            log := log + [Event(token, task, false)];
          }
      }
    }

    predicate Holds(token: int, task: int)
      reads this
      ensures Holds(token, task) <==> TookIt(Snapshot(), token, task) && StillHolds(Snapshot(), token, task)
    {
      && token in workers && workers[token].claimed.Some? && task in workers[token].claimed.value
      && task in tasks && tasks[task].status.Processing? && tasks[task].lockToken == Some(token)
    }

    /** Whatever other workers do meanwhile; none of it is done under this token. */
    method Interfere(others: seq<Step>, token: int)
      requires Valid() && token in workers && NoneConcerns(others, token)
      modifies this
      ensures Valid() && history == old(history) + others
      ensures token in workers && LeavesRun(old(Snapshot()), Snapshot(), token)
    {
      hide Do, Run, LeavesRun, Concerns;
      NothingLeavesRun(Snapshot(), token);
      for n := 0 to |others|
        invariant Valid() && history == old(history) + others[..n]
        invariant token in workers && LeavesRun(old(Snapshot()), Snapshot(), token)
      {
        OthersLeaveRun(old(Snapshot()), Snapshot(), others[n], config, token);
        Apply(others[n]);
      }
    }

    /** Writes the outcome of a row, as of this moment. */
    method Settle(token: int, task: int, succeeds: bool)
      requires Valid() && token in workers && workers[token].claimed.Some? && task in workers[token].claimed.value
      modifies this
      ensures Valid()
      ensures var step := if succeeds then MarkCompleted(token, task) else MarkFailed(token, task);
              history == old(history) + [step] && Snapshot() == Do(old(Snapshot()), step, config)
      ensures !old(Holds(token, task)) ==> Snapshot() == old(Snapshot())
      ensures old(Holds(token, task)) ==>
        var attempts := old(tasks)[task].attempts + 1;
        tasks == old(tasks)[task :=
          if succeeds then Task(Completed, attempts, old(tasks)[task].nextAttemptAt, None, None)
          else Task(Failed, attempts, now + 1000 * BackoffSeconds(config.retryBaseSeconds, attempts), None, None)]
      ensures old(Holds(token, task)) ==> log == old(log) + [Event(token, task, succeeds)]
    {
      RunKeepsInv(history, config);
      OutcomeRule(Snapshot(), token, task, config);
      hide Run, Do, Inv, BackoffSeconds;
      if succeeds {
        Apply(MarkCompleted(token, task));
      } else {
        Apply(MarkFailed(token, task));
      }
    }

    /**
     * Handles one claimed row: the provider is asked, then the row is completed,
     * or failed when the provider refuses or anything throws. True exactly when
     * the completion took effect. A row still held is then completed, or failed and
     * due again after the backoff; in any case it is not under this token any more,
     * and no other row has come under it.
     */
    method ProcessOne(token: int, task: int, answer: UploadAnswer, completionThrows: bool, others: seq<Step>)
      returns (completed: bool, ghost held: bool)
      requires Valid() && token in workers && workers[token].claimed.Some? && task in workers[token].claimed.value
      requires NoneConcerns(others, token)
      modifies this
      ensures completed <==>
        held && !completionThrows && answer.Answer? && (Lower(answer.text) == "ok" || Lower(answer.text) == "not found")
      ensures held ==> |log| > 0 && log[|log| - 1] == Event(token, task, completed)
      ensures held ==> task in tasks && tasks[task].attempts >= 1
      ensures held ==> tasks[task].lockToken == tasks[task].lockedAt == None
      ensures held && completed ==> tasks[task].status == Completed
      ensures held && !completed ==>
        && tasks[task].status == Failed
        && tasks[task].nextAttemptAt == now + 1000 * BackoffSeconds(config.retryBaseSeconds, tasks[task].attempts)
      ensures Valid() && history == old(history) + others + [Outcome(token, task, answer, completionThrows)]
      ensures token in workers && workers[token] == old(workers[token])
      ensures SuccessesOf(log, token) == old(SuccessesOf(log, token)) + if completed then 1 else 0
      ensures completed ==> answer.Answer? && Lower(answer.text) in {"ok", "not found"}
      ensures completed ==> task in tasks && tasks[task].status == Completed
      ensures !Carries(Snapshot(), token, task)
      ensures forall id: int :: Carries(Snapshot(), token, id) ==> old(Carries(Snapshot(), token, id))
    {
      hide Run, SuccessesOf, Carries, Concerns, NoneConcerns, Lower, DelaySeconds, BackoffSeconds;
      Interfere(others, token);
      RunKeepsInv(history, config);
      completed := answer.Answer? && Lower(answer.text) in {"ok", "not found"} && !completionThrows;
      var step := if completed then MarkCompleted(token, task) else MarkFailed(token, task);
      OutcomeEndsHold(Snapshot(), step, config);
      hide Inv, Do;
      held := Holds(token, task);
      var ends := completed;
      completed := completed && Holds(token, task);
      Settle(token, task, ends);
    }

    /** Finds, claims and reads back the rows of a run; nothing is claimed when nothing is found. */
    method ClaimRows(token: int, chosen: set<int>, first: seq<Step>, second: seq<Step>) returns (claimed: set<int>)
      requires Valid() && token !in workers
      requires NoneConcerns(first, token) && NoneConcerns(second, token)
      modifies this
      ensures Valid()
      ensures token in workers && (workers[token].claimed.Some? <==> workers[token].candidates != {})
      ensures history == old(history) + [FindCandidates(token, chosen)]
                         + if workers[token].claimed.None? then []
                           else first + [ClaimCandidates(token)] + second + [ReadClaimed(token)]
      ensures SuccessesOf(log, token) == 0
      ensures forall id: int :: Carries(Snapshot(), token, id) ==> id in claimed
      ensures claimed == if workers[token].claimed.Some? then workers[token].claimed.value.Keys else {}
    {
      RunKeepsInv(history, config);
      FreshTokenUnused(Snapshot(), token);
      FindingIsQuiet(Snapshot(), token, chosen, config);
      hide Run, Do, SuccessesOf, Inv, Carries, NoneConcerns;
      Apply(FindCandidates(token, chosen));
      if workers[token].candidates == {} {
        return {};
      }
      Interfere(first, token);
      ClaimingIsQuiet(Snapshot(), token, config);
      Apply(ClaimCandidates(token));
      Interfere(second, token);
      RunKeepsInv(history, config);
      ReadingFindsAll(Snapshot(), token, config);
      Apply(ReadClaimed(token));
      claimed := workers[token].claimed.value.Keys;
    }

    /**
     * One whole run under a fresh token, with other workers acting between any
     * two of its statements: the count it returns is exactly the number of rows
     * whose completion took effect under its token, and it leaves no row under
     * that token.
     */
    method ProcessPending(token: int, chosen: set<int>, answers: int -> UploadAnswer, throws: int -> bool,
                          interference: nat -> seq<Step>)
      returns (completed: nat)
      requires Valid() && token !in workers
      requires forall k :: NoneConcerns(interference(k), token)
      modifies this
      ensures Valid() && old(history) <= history
      ensures completed == SuccessesOf(log, token)
      ensures forall id :: id in tasks ==> tasks[id].lockToken != Some(token)
      ensures FindCandidates(token, chosen) in history
      ensures token in workers && (workers[token].claimed.Some? <==> workers[token].candidates != {})
      ensures workers[token].claimed.Some? ==>
        forall id :: id in workers[token].claimed.value ==> Outcome(token, id, answers(id), throws(id)) in history
    {
      hide Run, Do, SuccessesOf, Carries, NoneConcerns, Lower, Outcome;
      var claimed := ClaimRows(token, chosen, interference(0), interference(1));
      completed := 0;
      var left, n := claimed, 2;
      while exists task :: task in left
        invariant Valid() && old(history) <= history
        invariant FindCandidates(token, chosen) in history
        invariant token in workers && (workers[token].claimed.Some? <==> workers[token].candidates != {})
        invariant left <= claimed && completed == SuccessesOf(log, token)
        invariant claimed == if workers[token].claimed.Some? then workers[token].claimed.value.Keys else {}
        invariant forall id: int :: Carries(Snapshot(), token, id) ==> id in left
        invariant forall id :: id in claimed - left ==> Outcome(token, id, answers(id), throws(id)) in history
        decreases left
      {
        var task :| task in left;
        var done, _ := ProcessOne(token, task, answers(task), throws(task), interference(n));
        if done {
          completed := completed + 1;
        }
        left, n := left - {task}, n + 1;
      }
      NothingCarries(Snapshot(), token);
    }
  }

  lemma NothingCarries(s: State, token: int)
    requires forall id: int :: !Carries(s, token, id)
    ensures forall id :: id in s.tasks ==> s.tasks[id].lockToken != Some(token)
  {
    assert forall id: int :: id in s.tasks ==> !Carries(s, token, id);
  }

  lemma FindingIsQuiet(s: State, token: int, chosen: set<int>, c: Config)
    requires token !in s.workers && forall id: int :: !Carries(s, token, id)
    ensures var s' := Do(s, FindCandidates(token, chosen), c);
            && s'.log == s.log && token in s'.workers && s'.workers[token].claimed.None?
            && forall id: int :: !Carries(s', token, id)
  {
    var s' := Do(s, FindCandidates(token, chosen), c);
    assert s'.tasks == s.tasks;
    assert forall id: int :: Carries(s', token, id) <==> Carries(s, token, id);
  }

  lemma ClaimingIsQuiet(s: State, token: int, c: Config)
    requires token in s.workers && s.workers[token].claimed.None?
    ensures var s' := Do(s, ClaimCandidates(token), c); s'.log == s.log && s'.workers == s.workers
  {
  }

  /** What the run reads back are all the rows under its token. */
  lemma ReadingFindsAll(s: State, token: int, c: Config)
    requires Inv(s) && token in s.workers && s.workers[token].claimed.None?
    ensures var s' := Do(s, ReadClaimed(token), c);
            && s'.log == s.log && token in s'.workers && s'.workers[token].claimed.Some?
            && forall id: int :: Carries(s', token, id) ==> id in s'.workers[token].claimed.value
  {
    assert forall id :: id in s.tasks ==> TaskOk(s, id);
  }

  lemma {:induction false} NoSuccesses(log: seq<Event>, token: int)
    requires forall i :: 0 <= i < |log| ==> log[i].token != token
    ensures SuccessesOf(log, token) == 0
  {
    if log != [] {
      NoSuccesses(log[..|log| - 1], token);
    }
  }

  lemma FreshTokenUnused(s: State, token: int)
    requires Inv(s) && token !in s.workers
    ensures SuccessesOf(s.log, token) == 0 && forall id: int :: !Carries(s, token, id)
  {
    NoSuccesses(s.log, token);
    assert forall id :: id in s.tasks ==> TaskOk(s, id);
  }
}
