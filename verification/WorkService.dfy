/** The verification, completion and dispute transactions as they change the tables. */
module WorkService {
  import opened Common
  import opened WorkFlow
  import opened WorkRules

  datatype Error = NotFound | Forbidden | BadRequest | Conflict

  /** A wrong code is an outcome, not an error: the attempt must stay counted. */
  datatype OtpOutcome = Invalid(attempts: nat, locked: bool) | Accepted

  datatype AutoOutcome = AutoOutcome(completed: bool, finalizePayment: bool, blockedByDispute: bool)

  class WorkVerification {
    const config: Config
    var now: nat
    var bookings: map<int, Booking>
    var disputes: map<int, Dispute>
    var completedTasks: map<int, nat>
    var issued: nat
    ghost var failed: seq<nat>
    ghost var history: seq<Step>

    ghost function Snapshot(): State
      reads this
    {
      State(now, bookings, disputes, completedTasks, issued, failed)
    }

    ghost predicate Valid()
      reads this
    {
      Snapshot() == Run(history, config)
    }

    constructor (config: Config)
      ensures Valid() && history == [] && this.config == config
    {
      this.config := config;
      now, bookings, disputes, completedTasks, issued, failed, history := 0, map[], map[], map[], 0, [], [];
    }

    ghost method Record(step: Step)
      modifies this`history
      ensures history == old(history) + [step]
      ensures Run(history, config) == Do(Run(old(history), config), step, config)
    {
      history := history + [step];
      assert history[..|history| - 1] == old(history);
    }

    /** One proof per kind and booking; sending the same picture again is fine, another one is not. */
    method AttachFrontDoor(tasker: int, booking: int, publicId: string) returns (r: Result<(), Error>)
      requires Valid()
      modifies this
      ensures Valid() && history == old(history) + [Step.AttachFrontDoor(tasker, booking, publicId)]
      ensures r.Success? <==> Attempt(old(Snapshot()), Step.AttachFrontDoor(tasker, booking, publicId), config).Some?
      ensures r.Success? <==>
        && booking in old(bookings) && old(bookings)[booking].tasker == tasker && old(bookings)[booking].verified
        && old(bookings)[booking].status == Arrived
        && (old(bookings)[booking].frontDoor.Some? ==> old(bookings)[booking].frontDoor.value.publicId == publicId)
      ensures r.Success? ==>
        && booking in bookings && bookings[booking].frontDoor.Some?
        && bookings[booking].frontDoor.value.publicId == publicId
        && (old(bookings)[booking].frontDoor.Some? ==> Snapshot() == old(Snapshot()))
      ensures r.Failure? ==> Snapshot() == old(Snapshot())
    {
      FrontDoorRule(Snapshot(), tasker, booking, publicId, config);
      RefusedMeansSame(Snapshot(), Step.AttachFrontDoor(tasker, booking, publicId), config);
      hide Attempt, Do;
      Record(Step.AttachFrontDoor(tasker, booking, publicId));
      if booking !in bookings || bookings[booking].tasker != tasker {
        return Failure(NotFound);
      }
      var b := bookings[booking];
      if !b.verified || b.status != Arrived {
        return Failure(Conflict);
      }
      if b.frontDoor.Some? {
        return if b.frontDoor.value.publicId == publicId then Success(()) else Failure(Conflict);
      }
      bookings := bookings[booking := b.(frontDoor := Some(Image(tasker, publicId, now)),
                                         frontDoorVerifiedAt := Some(now))];
      return Success(());
    }

    method IssueStartCode(customer: int, booking: int, digits: string) returns (r: Result<int, Error>)
      requires Valid()
      modifies this
      ensures Valid() && history == old(history) + [Step.IssueStartCode(customer, booking, digits)]
      ensures r.Success? <==> Attempt(old(Snapshot()), Step.IssueStartCode(customer, booking, digits), config).Some?
      ensures r.Success? ==> r.value == now + config.otpTtlMs
      ensures r.Success? <==>
        && booking in old(bookings) && old(bookings)[booking].customer == customer && old(bookings)[booking].verified
        && old(bookings)[booking].status == Arrived && old(bookings)[booking].frontDoorVerifiedAt.Some?
      ensures r.Success? ==>
        bookings == old(bookings)[booking :=
          old(bookings)[booking].(startCode := Some(Code(old(issued), digits, now + config.otpTtlMs, 0)))]
      ensures r.Failure? ==> Snapshot() == old(Snapshot())
    {
      StartCodeRule(Snapshot(), customer, booking, digits, config);
      RefusedMeansSame(Snapshot(), Step.IssueStartCode(customer, booking, digits), config);
      hide Attempt, Do;
      Record(Step.IssueStartCode(customer, booking, digits));
      if booking !in bookings || bookings[booking].customer != customer {
        return Failure(NotFound);
      }
      var b := bookings[booking];
      if !b.verified || b.status != Arrived || b.frontDoorVerifiedAt.None? {
        return Failure(Conflict);
      }
      var expiresAt := now + config.otpTtlMs;
      bookings := bookings[booking := b.(startCode := Some(Code(issued, digits, expiresAt, 0)))];
      issued := issued + 1;
      return Success(expiresAt);
    }

    /**
     * Compares the code. A mismatch commits: the attempt is counted and reported,
     * and the code is locked once the attempts are used up.
     */
    method StartWork(tasker: int, booking: int, digits: string) returns (r: Result<OtpOutcome, Error>)
      requires Valid()
      modifies this
      ensures Valid() && history == old(history) + [Step.StartWork(tasker, booking, digits)]
      ensures r.Success? <==> Attempt(old(Snapshot()), Step.StartWork(tasker, booking, digits), config).Some?
      ensures r.Success? && r.value.Accepted? <==>
        && booking in bookings && booking in old(bookings)
        && bookings[booking].status == InProgress && old(bookings)[booking].status == Arrived
      ensures r.Success? && r.value.Invalid? ==>
        && booking in bookings && bookings[booking].startCode.Some? && bookings[booking].status == Arrived
        && r.value.attempts == bookings[booking].startCode.value.attempts
        && r.value.attempts == old(bookings)[booking].startCode.value.attempts + 1
        && (r.value.locked <==> r.value.attempts == config.otpMaxAttempts)
      ensures r == Success(Accepted) <==>
        && booking in old(bookings) && old(bookings)[booking].tasker == tasker && old(bookings)[booking].verified
        && old(bookings)[booking].status == Arrived && old(bookings)[booking].frontDoorVerifiedAt.Some?
        && old(bookings)[booking].startCode.Some?
        && (var code := old(bookings)[booking].startCode.value;
            now < code.expiresAt && code.attempts < config.otpMaxAttempts && code.digits == digits)
      ensures r.Success? <==>
        && booking in old(bookings) && AwaitsStart(old(bookings)[booking], tasker)
        && CodeIsGood(old(bookings)[booking].startCode, now, config.otpMaxAttempts)
      ensures r == Success(Accepted) ==>
        bookings == old(bookings)[booking := old(bookings)[booking].(status := InProgress, startCode := None,
          timer := Some(Timer(Running, now, None, None, 0)), startVerifiedAt := Some(now))]
      ensures r.Failure? ==> Snapshot() == old(Snapshot())
      ensures booking in old(bookings) && HasRunOut(old(bookings)[booking].startCode, now) ==>
        r.Failure? && Snapshot() == old(Snapshot())
    {
      NoTimerOnArrival(history, config, booking);
      StartRule(Snapshot(), tasker, booking, digits, config);
      RefusedMeansSame(Snapshot(), Step.StartWork(tasker, booking, digits), config);
      hide Attempt, Do, Run;
      Record(Step.StartWork(tasker, booking, digits));
      if booking !in bookings || bookings[booking].tasker != tasker {
        return Failure(NotFound);
      }
      var b := bookings[booking];
      if !b.verified || b.status != Arrived || b.frontDoorVerifiedAt.None? || b.startCode.None? {
        return Failure(Conflict);
      }
      var code := b.startCode.value;
      if code.expiresAt <= now {
        return Failure(BadRequest);
      }
      if code.attempts >= config.otpMaxAttempts {
        return Failure(Conflict);
      }
      if digits != code.digits {
        var attempts := code.attempts + 1;
        bookings := bookings[booking := b.(startCode := Some(code.(attempts := attempts)))];
        failed := failed + [code.serial];
        return Success(Invalid(attempts, attempts >= config.otpMaxAttempts));
      }
      if b.timer.Some? {
        return Failure(Conflict);
      }
      bookings := bookings[booking := b.(status := InProgress, timer := Some(Timer(Running, now, None, None, 0)),
                                         startVerifiedAt := Some(now), startCode := None)];
      return Success(Accepted);
    }

    /** The completion proof stops the timer. */
    method AttachCompletion(tasker: int, booking: int, publicId: string) returns (r: Result<(), Error>)
      requires Valid()
      modifies this
      ensures Valid() && history == old(history) + [Step.AttachCompletion(tasker, booking, publicId)]
      ensures r.Success? <==> Attempt(old(Snapshot()), Step.AttachCompletion(tasker, booking, publicId), config).Some?
      ensures r.Success? <==>
        && booking in old(bookings) && old(bookings)[booking].tasker == tasker && old(bookings)[booking].verified
        && old(bookings)[booking].status == InProgress
        && (if old(bookings)[booking].completion.Some?
            then old(bookings)[booking].completion.value.publicId == publicId
            else old(bookings)[booking].timer.Some? && old(bookings)[booking].timer.value.status != Stopped)
      ensures r.Success? ==>
        && booking in bookings && bookings[booking].completion.Some?
        && bookings[booking].completion.value.publicId == publicId
        && (if old(bookings)[booking].completion.Some? then Snapshot() == old(Snapshot())
            else && bookings[booking].completionProofAt == Some(now) && bookings[booking].timer.Some?
                 && bookings[booking].timer.value.status == Stopped
                 && bookings[booking].timer.value.stoppedAt == Some(now)
                 && bookings[booking].timer.value.pausedSecs ==
                      old(bookings)[booking].timer.value.pausedSecs
                      + SecondsPaused(old(bookings)[booking].timer.value, now))
      ensures r.Failure? ==> Snapshot() == old(Snapshot())
    {
      CompletionRule(Snapshot(), tasker, booking, publicId, config);
      RefusedMeansSame(Snapshot(), Step.AttachCompletion(tasker, booking, publicId), config);
      hide Attempt, Do;
      Record(Step.AttachCompletion(tasker, booking, publicId));
      if booking !in bookings || bookings[booking].tasker != tasker {
        return Failure(NotFound);
      }
      var b := bookings[booking];
      if !b.verified || b.status != InProgress {
        return Failure(Conflict);
      }
      if b.completion.Some? {
        return if b.completion.value.publicId == publicId then Success(()) else Failure(Conflict);
      }
      if b.timer.None? || b.timer.value.status.Stopped? {
        return Failure(Conflict);
      }
      var t := b.timer.value;
      var pausedDelta := 0;
      if t.status.Paused? && t.pausedAt.Some? && now > t.pausedAt.value {
        pausedDelta := (now - t.pausedAt.value) / 1000;
      }
      var stopped := Timer(Stopped, t.startedAt, None, Some(now), t.pausedSecs + pausedDelta);
      bookings := bookings[booking := b.(timer := Some(stopped), completion := Some(Image(tasker, publicId, now)),
                                         completionProofAt := Some(now))];
      return Success(());
    }

    method IssueCompletionCode(customer: int, booking: int, digits: string) returns (r: Result<int, Error>)
      requires Valid()
      modifies this
      ensures Valid() && history == old(history) + [Step.IssueCompletionCode(customer, booking, digits)]
      ensures r.Success? <==> Attempt(old(Snapshot()), Step.IssueCompletionCode(customer, booking, digits),
                                      config).Some?
      ensures r.Success? ==> r.value == now + config.otpTtlMs
      ensures r.Success? <==>
        && booking in old(bookings) && old(bookings)[booking].customer == customer && old(bookings)[booking].verified
        && old(bookings)[booking].status == InProgress && old(bookings)[booking].completionProofAt.Some?
        && old(bookings)[booking].timer.Some? && old(bookings)[booking].timer.value.stoppedAt.Some?
      ensures r.Success? ==>
        bookings == old(bookings)[booking :=
          old(bookings)[booking].(completionCode := Some(Code(old(issued), digits, now + config.otpTtlMs, 0)))]
      ensures r.Failure? ==> Snapshot() == old(Snapshot())
    {
      CompletionCodeRule(Snapshot(), customer, booking, digits, config);
      RefusedMeansSame(Snapshot(), Step.IssueCompletionCode(customer, booking, digits), config);
      hide Attempt, Do;
      Record(Step.IssueCompletionCode(customer, booking, digits));
      if booking !in bookings || bookings[booking].customer != customer {
        return Failure(NotFound);
      }
      var b := bookings[booking];
      if !b.verified || b.status != InProgress || b.completionProofAt.None? {
        return Failure(Conflict);
      }
      if b.timer.None? || b.timer.value.stoppedAt.None? {
        return Failure(Conflict);
      }
      var expiresAt := now + config.otpTtlMs;
      bookings := bookings[booking := b.(completionCode := Some(Code(issued, digits, expiresAt, 0)))];
      issued := issued + 1;
      return Success(expiresAt);
    }

    /** Finishes verified work; a repeated call on a finished booking is a success that changes nothing. */
    method FinishWork(tasker: int, booking: int, digits: string) returns (r: Result<OtpOutcome, Error>)
      requires Valid()
      modifies this
      ensures Valid() && history == old(history) + [Step.FinishWork(tasker, booking, digits)]
      ensures Attempt(old(Snapshot()), Step.FinishWork(tasker, booking, digits), config).Some? ==> r.Success?
      ensures Attempt(old(Snapshot()), Step.FinishWork(tasker, booking, digits), config).None? ==>
        Snapshot() == old(Snapshot())
        && (r.Success? <==> booking in bookings && bookings[booking].tasker == tasker && bookings[booking].verified
                            && bookings[booking].status == Completed && bookings[booking].completionVerifiedAt.Some?)
      ensures r.Success? && r.value.Accepted? ==> booking in bookings && bookings[booking].status == Completed
      ensures r.Success? && r.value.Invalid? ==>
        && booking in bookings && bookings[booking].completionCode.Some? && bookings[booking].status == InProgress
        && r.value.attempts == bookings[booking].completionCode.value.attempts
        && (r.value.locked <==> r.value.attempts == config.otpMaxAttempts)
      ensures r == Success(Accepted) <==>
        && booking in old(bookings) && old(bookings)[booking].tasker == tasker && old(bookings)[booking].verified
        && (|| (old(bookings)[booking].status == Completed && old(bookings)[booking].completionVerifiedAt.Some?)
            || (&& AwaitsFinish(old(bookings)[booking], tasker) && old(bookings)[booking].completionCode.Some?
                && var code := old(bookings)[booking].completionCode.value;
                   now < code.expiresAt && code.attempts < config.otpMaxAttempts && code.digits == digits))
      ensures r == Success(Accepted) && old(bookings)[booking].status != Completed ==>
        && completedTasks == CountedUp(old(completedTasks), tasker)
        && bookings == old(bookings)[booking := old(bookings)[booking].(status := Completed, completionCode := None,
             submittedAt := old(bookings)[booking].completionProofAt, approvedAt := Some(now),
             completionVerifiedAt := Some(now), taskCompletedAt := Some(now))]
      ensures r.Success? && r.value.Invalid? ==>
        r.value.attempts == old(bookings)[booking].completionCode.value.attempts + 1
      ensures r.Failure? ==> Snapshot() == old(Snapshot())
      ensures booking in old(bookings) && HasRunOut(old(bookings)[booking].completionCode, now) ==>
        Snapshot() == old(Snapshot()) && (old(bookings)[booking].status != Completed ==> r.Failure?)
    {
      FinishRule(Snapshot(), tasker, booking, digits, config);
      RefusedMeansSame(Snapshot(), Step.FinishWork(tasker, booking, digits), config);
      hide Do, Attempt, Run;
      Record(Step.FinishWork(tasker, booking, digits));
      if booking !in bookings || bookings[booking].tasker != tasker {
        return Failure(NotFound);
      }
      var b := bookings[booking];
      if !b.verified {
        return Failure(Conflict);
      }
      if b.status == Completed && b.completionVerifiedAt.Some? {
        return Success(Accepted);
      }
      if b.status != InProgress || b.completionProofAt.None? {
        return Failure(Conflict);
      }
      if b.timer.None? || b.timer.value.stoppedAt.None? || b.timer.value.status != Stopped || b.completionCode.None? {
        return Failure(Conflict);
      }
      var code := b.completionCode.value;
      if code.expiresAt <= now {
        return Failure(BadRequest);
      }
      if code.attempts >= config.otpMaxAttempts {
        return Failure(Conflict);
      }
      if digits != code.digits {
        var attempts := code.attempts + 1;
        bookings := bookings[booking := b.(completionCode := Some(code.(attempts := attempts)))];
        failed := failed + [code.serial];
        return Success(Invalid(attempts, attempts >= config.otpMaxAttempts));
      }
      bookings := bookings[booking := b.(status := Completed, submittedAt := b.completionProofAt,
                                         approvedAt := Some(now), completionVerifiedAt := Some(now),
                                         taskCompletedAt := Some(now), completionCode := None)];
      CountCompletion(tasker);
      return Success(Accepted);
    }

    method CountCompletion(tasker: int)
      modifies this`completedTasks
      ensures completedTasks == CountedUp(old(completedTasks), tasker)
    {
      var before := 0;
      if tasker in completedTasks {
        before := completedTasks[tasker];
      }
      completedTasks := completedTasks[tasker := before + 1];
    }

    /** Work that is finished, proved where that is needed, and not disputed. */
    ghost predicate IsReadyForApproval(booking: int)
      requires booking in bookings
      reads this
    {
      && (bookings[booking].status == InProgress || bookings[booking].status == AwaitingApproval)
      && (bookings[booking].verified ==> bookings[booking].completionProofAt.Some?)
      && bookings[booking].timer.Some? && bookings[booking].timer.value.status == Stopped
      && !UnderDispute(Snapshot(), booking)
    }

    /** The customer's own approval; on a completed booking it changes nothing. */
    method CompleteByCustomer(customer: int, booking: int) returns (r: Result<(), Error>)
      requires Valid()
      modifies this
      ensures Valid() && history == old(history) + [Step.CompleteByCustomer(customer, booking)]
      ensures r.Success? <==> booking in bookings && bookings[booking].customer == customer
                              && bookings[booking].status == Completed
      ensures r.Success? <==>
        && booking in old(bookings) && old(bookings)[booking].customer == customer
        && (old(bookings)[booking].status == Completed || old(IsReadyForApproval(booking)))
      ensures r.Success? && old(bookings)[booking].status != Completed ==>
        && bookings == old(bookings)[booking := bookings[booking]]
        && bookings[booking].approvedAt == bookings[booking].taskCompletedAt == Some(now)
        && completedTasks == CountedUp(old(completedTasks), bookings[booking].tasker)
      ensures r.Failure? || old(bookings)[booking].status == Completed ==> Snapshot() == old(Snapshot())
    {
      ApprovalRule(Snapshot(), customer, booking, config);
      RefusedMeansSame(Snapshot(), Step.CompleteByCustomer(customer, booking), config);
      hide Do, Attempt, Run;
      Record(Step.CompleteByCustomer(customer, booking));
      if booking !in bookings || bookings[booking].customer != customer {
        return Failure(NotFound);
      }
      var b := bookings[booking];
      if b.status == Completed {
        return Success(());
      }
      if b.status !in {InProgress, AwaitingApproval} {
        return Failure(Conflict);
      }
      if b.verified && b.completionProofAt.None? {
        return Failure(Conflict);
      }
      if b.timer.None? || b.timer.value.status != Stopped {
        return Failure(Conflict);
      }
      if exists d :: d in disputes && disputes[d].booking == booking && ActiveDispute(disputes[d]) {
        return Failure(Conflict);
      }
      var submittedAt := if b.submittedAt.Some? then b.submittedAt
                         else if b.completionProofAt.Some? then b.completionProofAt else Some(now);
      bookings := bookings[booking := b.(status := Completed, submittedAt := submittedAt, approvedAt := Some(now),
                                         completionVerifiedAt :=
                                           if b.verified then Some(now) else b.completionVerifiedAt,
                                         taskCompletedAt := Some(now))];
      CountCompletion(b.tasker);
      return Success(());
    }

    /** The sweep's turn at one booking, with the time at which the sweep started. */
    method AutoApproveOne(booking: int, sweptAt: int) returns (outcome: AutoOutcome)
      requires Valid() && sweptAt <= now
      modifies this
      ensures Valid() && history == old(history) + [AutoApprove(booking, sweptAt)]
      ensures outcome.completed <==> MayAutoApprove(old(Snapshot()), booking, sweptAt)
      ensures outcome.blockedByDispute <==>
        && booking in old(bookings) && !old(bookings)[booking].verified
        && (old(HasActiveDispute(Snapshot(), booking)) || old(bookings)[booking].payment == OnHold)
      ensures outcome.finalizePayment <==> outcome.completed || old(AwaitsPayment(Snapshot(), booking))
      ensures outcome.completed <==>
        && booking in old(bookings) && !old(bookings)[booking].verified
        && old(bookings)[booking].status == AwaitingApproval && old(bookings)[booking].payment != OnHold
        && old(bookings)[booking].approvalDueAt.Some? && old(bookings)[booking].approvalDueAt.value <= sweptAt
        && !old(UnderDispute(Snapshot(), booking))
      ensures outcome.blockedByDispute <==>
        && booking in old(bookings) && !old(bookings)[booking].verified
        && (old(UnderDispute(Snapshot(), booking)) || old(bookings)[booking].payment == OnHold)
      ensures old(AwaitsPayment(Snapshot(), booking)) <==>
        && booking in old(bookings) && !old(bookings)[booking].verified && !old(UnderDispute(Snapshot(), booking))
        && old(bookings)[booking].status == Completed && old(bookings)[booking].autoApprovedAt.Some?
        && !old(bookings)[booking].paid
        && (old(bookings)[booking].payment == Ready || old(bookings)[booking].payment == Processing)
      ensures outcome.completed ==>
        && bookings == old(bookings)[booking := old(bookings)[booking].(status := Completed,
             approvedAt := Some(sweptAt), autoApprovedAt := Some(sweptAt), taskCompletedAt := Some(sweptAt))]
        && completedTasks == CountedUp(old(completedTasks), old(bookings)[booking].tasker)
      ensures !outcome.completed ==> Snapshot() == old(Snapshot())
    {
      AutoApprovalRule(Snapshot(), booking, sweptAt, config);
      RefusedMeansSame(Snapshot(), AutoApprove(booking, sweptAt), config);
      DisputesSeen(Snapshot(), booking, 0);
      hide Do, Attempt, Run;
      Record(AutoApprove(booking, sweptAt));
      if booking !in bookings || bookings[booking].verified {
        return AutoOutcome(false, false, false);
      }
      var b := bookings[booking];
      if (exists d :: d in disputes && disputes[d].booking == booking && ActiveDispute(disputes[d]))
         || b.payment == OnHold {
        return AutoOutcome(false, false, true);
      }
      if b.status == Completed && b.autoApprovedAt.Some? && !b.paid && b.payment in {Ready, Processing} {
        return AutoOutcome(false, true, false);
      }
      if b.status != AwaitingApproval || b.approvalDueAt.None? || b.approvalDueAt.value > sweptAt {
        return AutoOutcome(false, false, false);
      }
      bookings := bookings[booking := b.(status := Completed, approvedAt := Some(sweptAt),
                                         autoApprovedAt := Some(sweptAt), taskCompletedAt := Some(sweptAt))];
      CountCompletion(b.tasker);
      return AutoOutcome(true, true, false);
    }

    /** Whether a dispute may be opened, or which one this filing repeats. */
    method AdmitFiling(user: int, asTasker: bool, booking: int, noShow: bool, key: Option<string>)
      returns (r: Result<Option<int>, Error>)
      ensures r == Success(None) <==> MayFile(Snapshot(), user, asTasker, booking, noShow, key, config)
      ensures r == Success(None) <==> FilingAllowed(Snapshot(), user, asTasker, booking, noShow, key, config)
      ensures r.Success? && r.value.Some? ==>
        && r.value.value in disputes && disputes[r.value.value].filedBy == user && key.Some?
        && disputes[r.value.value].key == key && disputes[r.value.value].booking == booking
    {
      if booking !in bookings || (if asTasker then bookings[booking].tasker else bookings[booking].customer) != user {
        return Failure(NotFound);
      }
      var b := bookings[booking];
      if d :| d in disputes && disputes[d].filedBy == user && key.Some? && disputes[d].key == key {
        return if disputes[d].booking == booking then Success(Some(d)) else Failure(Conflict);
      }
      if b.status == Cancelled {
        return Failure(Conflict);
      }
      if noShow {
        if !asTasker {
          return Failure(Forbidden);
        }
        if b.status != Arrived {
          return Failure(Conflict);
        }
      } else {
        var anchor := if b.taskCompletedAt.Some? then b.taskCompletedAt
                      else if b.approvedAt.Some? then b.approvedAt else b.submittedAt;
        if anchor.None? || anchor.value + config.filingWindowMs < now {
          return Failure(Conflict);
        }
      }
      if exists d :: d in disputes && disputes[d].booking == booking && ActiveDispute(disputes[d]) {
        return Failure(Conflict);
      }
      return Success(None);
    }

    /**
     * Opens a dispute. The same user filing again under the same key gets the
     * first dispute back, even if filing it cancelled the booking.
     */
    method FileComplaint(user: int, asTasker: bool, booking: int, dispute: int, noShow: bool, key: Option<string>)
      returns (r: Result<int, Error>)
      requires Valid() && dispute !in disputes
      modifies this
      ensures Valid() && history == old(history) + [Step.FileComplaint(user, asTasker, booking, dispute, noShow, key)]
      ensures r.Success? && r.value == dispute <==>
        MayFile(old(Snapshot()), user, asTasker, booking, noShow, key, config)
      ensures r.Success? && r.value != dispute ==>
        && r.value in disputes && disputes[r.value].filedBy == user && key.Some? && disputes[r.value].key == key
        && disputes[r.value].booking == booking && Snapshot() == old(Snapshot())
      ensures r.Failure? ==> Snapshot() == old(Snapshot())
      ensures noShow && r.Success? && r.value == dispute ==>
        booking in bookings && bookings[booking].status == Cancelled
      ensures r.Success? && r.value == dispute <==>
        FilingAllowed(old(Snapshot()), user, asTasker, booking, noShow, key, config)
      ensures r.Success? && r.value == dispute ==>
        && disputes == old(disputes)[dispute := Dispute(booking, user, key, Open, 0, 0, {}, NoRefund)]
        && bookings == old(bookings)[booking := old(bookings)[booking].(
             payment := OnHoldUnlessConcluded(old(bookings)[booking].payment),
             status := if noShow then Cancelled else old(bookings)[booking].status)]
    {
      FilingRule(Snapshot(), user, asTasker, booking, dispute, noShow, key, config);
      RefusedMeansSame(Snapshot(), Step.FileComplaint(user, asTasker, booking, dispute, noShow, key), config);
      HoldsUnlessConcluded(if booking in bookings then bookings[booking].payment else Other);
      hide Do, Attempt, Run, MayFile, HasActiveDispute, IsReplay, CompletionAnchor, FilingAllowed;
      hide Concluded, OnHoldUnlessConcluded;
      Record(Step.FileComplaint(user, asTasker, booking, dispute, noShow, key));
      var admitted := AdmitFiling(user, asTasker, booking, noShow, key);
      if admitted.Failure? {
        return Failure(admitted.error);
      }
      if admitted.value.Some? {
        return Success(admitted.value.value);
      }
      var b := bookings[booking];
      disputes := disputes[dispute := Dispute(booking, user, key, Open, 0, 0, {}, NoRefund)];
      if noShow {
        bookings := bookings[booking := b.(status := Cancelled)];
      }
      if !Concluded(b.payment) {
        bookings := bookings[booking := bookings[booking].(payment := OnHold)];
      }
      assert bookings == old(bookings)[booking := bookings[booking]];
      return Success(dispute);
    }

    method AppealDispute(user: int, asTasker: bool, dispute: int) returns (r: Result<(), Error>)
      requires Valid()
      modifies this
      ensures Valid() && history == old(history) + [Appeal(user, asTasker, dispute)]
      ensures r.Success? <==> MayAppeal(old(Snapshot()), user, asTasker, dispute, config)
      ensures r.Success? ==> dispute in disputes && disputes[dispute].status == UnderInvestigation
      ensures r.Success? <==> AppealAllowed(old(Snapshot()), user, asTasker, dispute, config)
      ensures r.Success? ==>
        var d := old(disputes)[dispute]; var b := old(bookings)[d.booking];
        && disputes == old(disputes)[dispute := d.(status := UnderInvestigation, appealCount := d.appealCount + 1,
                                                   appeals := d.appeals + {user})]
        && bookings == old(bookings)[d.booking := b.(payment := OnHoldUnlessConcluded(b.payment))]
    {
      DisputesHaveBookings(history, config);
      AppealRule(Snapshot(), user, asTasker, dispute, config);
      RefusedMeansSame(Snapshot(), Appeal(user, asTasker, dispute), config);
      hide Do, Attempt, Run;
      Record(Appeal(user, asTasker, dispute));
      if dispute !in disputes {
        return Failure(NotFound);
      }
      var d := disputes[dispute];
      var b := bookings[d.booking];
      if user != (if asTasker then b.tasker else b.customer) {
        return Failure(NotFound);
      }
      if d.status !in {Resolved, Dismissed} || user in d.appeals || d.closedAt + config.appealWindowMs < now {
        return Failure(Conflict);
      }
      if exists o :: o in disputes && o != dispute && disputes[o].booking == d.booking && ActiveDispute(disputes[o]) {
        return Failure(Conflict);
      }
      disputes := disputes[dispute := d.(status := UnderInvestigation, appealCount := d.appealCount + 1,
                                         appeals := d.appeals + {user})];
      if !Concluded(b.payment) {
        bookings := bookings[d.booking := b.(payment := OnHold)];
      } else {
        assert bookings == bookings[d.booking := b];
      }
      return Success(());
    }

    /** The customer accepts that the work took longer than estimated. */
    method ApproveDurationReview(customer: int, booking: int) returns (r: Result<nat, Error>)
      requires Valid()
      modifies this
      ensures Valid() && history == old(history) + [Step.ApproveDurationReview(customer, booking)]
      ensures r.Success? <==> Attempt(old(Snapshot()), Step.ApproveDurationReview(customer, booking), config).Some?
      ensures r.Success? ==> booking in bookings && r.value == bookings[booking].extensionMinutes
      ensures r.Success? <==>
        && booking in old(bookings) && old(bookings)[booking].customer == customer
        && old(bookings)[booking].status == Completed && old(bookings)[booking].payment == ReviewRequired
        && old(bookings)[booking].timer.Some? && old(bookings)[booking].timer.value.stoppedAt.Some?
    {
      TimersAreSound(history, config);
      ReviewRule(Snapshot(), customer, booking, config);
      RefusedMeansSame(Snapshot(), Step.ApproveDurationReview(customer, booking), config);
      hide Do, Attempt, Run;
      Record(Step.ApproveDurationReview(customer, booking));
      if booking !in bookings || bookings[booking].customer != customer {
        return Failure(NotFound);
      }
      var b := bookings[booking];
      if b.status != Completed || b.payment != ReviewRequired || b.timer.None? || b.timer.value.stoppedAt.None? {
        return Failure(Conflict);
      }
      var t := b.timer.value;
      var elapsedSeconds := (t.stoppedAt.value - t.startedAt) / 1000 - t.pausedSecs;
      var actualMinutes := (elapsedSeconds + 59) / 60;
      if actualMinutes < 1 {
        actualMinutes := 1;
      }
      var extension := b.extensionMinutes;
      if actualMinutes - b.estimatedMinutes > extension {
        extension := actualMinutes - b.estimatedMinutes;
      }
      bookings := bookings[booking := b.(extensionMinutes := extension, payment := Ready)];
      return Success(extension);
    }
  }

  /** An automatically approved booking whose payment an earlier sweep could not finish. */
  predicate AwaitsPayment(s: State, booking: int) {
    && booking in s.bookings && !s.bookings[booking].verified && !HasActiveDispute(s, booking)
    && s.bookings[booking].status == Completed && s.bookings[booking].autoApprovedAt.Some?
    && !s.bookings[booking].paid && s.bookings[booking].payment in {Ready, Processing}
  }

  lemma NoTimerOnArrival(steps: seq<Step>, c: Config, id: int)
    ensures var s := Run(steps, c);
            id in s.bookings && s.bookings[id].status == Arrived ==> s.bookings[id].timer.None?
  {
    RunKeepsInv(steps, c);
    var s := Run(steps, c);
    hide Run;
    assert id in s.bookings ==> BookingOk(s.bookings[id], s.now);
  }

  lemma DisputesHaveBookings(steps: seq<Step>, c: Config)
    ensures var s := Run(steps, c); forall d :: d in s.disputes ==> s.disputes[d].booking in s.bookings
  {
    RunKeepsInv(steps, c);
    var s := Run(steps, c);
    hide Run;
    assert forall d :: d in s.disputes ==> DisputeOk(s, s.disputes[d]);
  }

  lemma TimersAreSound(steps: seq<Step>, c: Config)
    ensures var s := Run(steps, c);
            forall b :: b in s.bookings && s.bookings[b].timer.Some? ==> TimerOk(s.bookings[b].timer.value, s.now)
  {
    RunKeepsInv(steps, c);
    var s := Run(steps, c);
    hide Run;
    assert forall b :: b in s.bookings ==> BookingOk(s.bookings[b], s.now);
  }
}
