/**
 * When each transaction of the work flow goes through and what it then changes,
 * told from the fields of the rows alone; and how long a code can be used.
 */
module WorkRules {
  import opened Common
  import opened WorkFlow

  predicate IsActive(status: DisputeStatus) {
    status == Open || status == UnderInvestigation || status == Escalated
  }

  predicate UnderDispute(s: State, booking: int) {
    exists d :: d in s.disputes && s.disputes[d].booking == booking && IsActive(s.disputes[d].status)
  }

  /** Another dispute of the booking than this one is active. */
  predicate UnderOtherDispute(s: State, booking: int, dispute: int) {
    exists d :: && d in s.disputes && d != dispute && s.disputes[d].booking == booking
                && IsActive(s.disputes[d].status)
  }

  lemma DisputesSeen(s: State, booking: int, dispute: int)
    ensures HasActiveDispute(s, booking) <==> UnderDispute(s, booking)
    ensures HasOtherActive(s, booking, dispute) <==> UnderOtherDispute(s, booking, dispute)
  {
  }

  /** Another approved tasker takes over before work, undisputed and before the payment is settled; all else stays. */
  lemma ReassignRule(s: State, booking: int, tasker: int, approved: bool, c: Config)
    ensures var step := Reassign(booking, tasker, approved);
            && (Attempt(s, step, c).Some? <==>
                && approved && booking in s.bookings && s.bookings[booking].tasker != tasker
                && (s.bookings[booking].status == Pending || s.bookings[booking].status == Confirmed
                    || s.bookings[booking].status == EnRoute || s.bookings[booking].status == Arrived)
                && s.bookings[booking].payment != Paid && s.bookings[booking].payment != PartiallyRefunded
                && s.bookings[booking].payment != Refunded && !UnderDispute(s, booking))
            && (Attempt(s, step, c).Some? ==>
                  Do(s, step, c) ==
                  s.(bookings := s.bookings[booking := s.bookings[booking].(tasker := tasker, status := Pending)]))
  {
    DisputesSeen(s, booking, 0);
    hide HasActiveDispute, UnderDispute;
  }

  // ---- Proofs and codes ----

  /** The code is out, has not run out, and is not locked. */
  predicate CodeIsGood(code: Option<Code>, now: int, maxAttempts: nat) {
    code.Some? && now < code.value.expiresAt && code.value.attempts < maxAttempts
  }

  predicate HasRunOut(code: Option<Code>, now: int) {
    code.Some? && code.value.expiresAt <= now
  }

  predicate AwaitsStart(b: Booking, tasker: int) {
    b.tasker == tasker && b.verified && b.status == Arrived && b.frontDoorVerifiedAt.Some?
  }

  predicate AwaitsFinish(b: Booking, tasker: int) {
    && b.tasker == tasker && b.verified && b.status == InProgress && b.completionProofAt.Some?
    && b.timer.Some? && b.timer.value.status == Stopped && b.timer.value.stoppedAt.Some?
  }

  lemma FrontDoorRule(s: State, tasker: int, booking: int, publicId: string, c: Config)
    ensures var step := AttachFrontDoor(tasker, booking, publicId);
            && (Attempt(s, step, c).Some? <==>
                && booking in s.bookings && s.bookings[booking].tasker == tasker && s.bookings[booking].verified
                && s.bookings[booking].status == Arrived
                && (s.bookings[booking].frontDoor.Some? ==> s.bookings[booking].frontDoor.value.publicId == publicId))
            && (Attempt(s, step, c).Some? ==>
                  Do(s, step, c) == s.(bookings := s.bookings[booking :=
                    if s.bookings[booking].frontDoor.Some? then s.bookings[booking]
                    else s.bookings[booking].(frontDoor := Some(Image(tasker, publicId, s.now)),
                                              frontDoorVerifiedAt := Some(s.now))]))
  {
  }

  lemma StartCodeRule(s: State, customer: int, booking: int, digits: string, c: Config)
    ensures var step := IssueStartCode(customer, booking, digits);
            && (Attempt(s, step, c).Some? <==>
                && booking in s.bookings && s.bookings[booking].customer == customer && s.bookings[booking].verified
                && s.bookings[booking].status == Arrived && s.bookings[booking].frontDoorVerifiedAt.Some?)
            && (Attempt(s, step, c).Some? ==>
                  Do(s, step, c) == s.(issued := s.issued + 1, bookings := s.bookings[booking :=
                    s.bookings[booking].(startCode := Some(Code(s.issued, digits, s.now + c.otpTtlMs, 0)))]))
  {
  }

  /** A start is compared exactly while the code is good; the right digits start work, wrong ones use an attempt. */
  lemma StartRule(s: State, tasker: int, booking: int, digits: string, c: Config)
    requires booking in s.bookings && s.bookings[booking].status == Arrived ==> s.bookings[booking].timer.None?
    ensures var step := StartWork(tasker, booking, digits);
            && (Attempt(s, step, c).Some? <==>
                && booking in s.bookings && AwaitsStart(s.bookings[booking], tasker)
                && CodeIsGood(s.bookings[booking].startCode, s.now, c.otpMaxAttempts))
            && (Attempt(s, step, c).Some? ==>
                  var b := s.bookings[booking]; var code := b.startCode.value;
                  Do(s, step, c) ==
                  if digits == code.digits
                  then s.(bookings := s.bookings[booking :=
                         b.(status := InProgress, timer := Some(Timer(Running, s.now, None, None, 0)),
                            startVerifiedAt := Some(s.now), startCode := None)])
                  else s.(failed := s.failed + [code.serial], bookings := s.bookings[booking :=
                         b.(startCode := Some(code.(attempts := code.attempts + 1)))]))
  {
  }

  lemma CompletionRule(s: State, tasker: int, booking: int, publicId: string, c: Config)
    ensures var step := AttachCompletion(tasker, booking, publicId);
            && (Attempt(s, step, c).Some? <==>
                && booking in s.bookings && s.bookings[booking].tasker == tasker && s.bookings[booking].verified
                && s.bookings[booking].status == InProgress
                && (if s.bookings[booking].completion.Some?
                    then s.bookings[booking].completion.value.publicId == publicId
                    else s.bookings[booking].timer.Some? && s.bookings[booking].timer.value.status != Stopped))
            && (Attempt(s, step, c).Some? && s.bookings[booking].completion.Some? ==> Do(s, step, c) == s)
            && (Attempt(s, step, c).Some? && s.bookings[booking].completion.None? ==>
                  var t := s.bookings[booking].timer.value;
                  Do(s, step, c) == s.(bookings := s.bookings[booking := s.bookings[booking].(
                    completion := Some(Image(tasker, publicId, s.now)), completionProofAt := Some(s.now),
                    timer := Some(t.(status := Stopped, pausedAt := None, stoppedAt := Some(s.now),
                                     pausedSecs := t.pausedSecs + SecondsPaused(t, s.now))))]))
  {
  }

  /** Whole seconds for which a paused timer has been paused. */
  function SecondsPaused(t: Timer, now: int): nat {
    if t.status != Paused || t.pausedAt.None? || now <= t.pausedAt.value then 0
    else (now - t.pausedAt.value) / 1000
  }

  lemma CompletionCodeRule(s: State, customer: int, booking: int, digits: string, c: Config)
    ensures var step := IssueCompletionCode(customer, booking, digits);
            && (Attempt(s, step, c).Some? <==>
                && booking in s.bookings && s.bookings[booking].customer == customer && s.bookings[booking].verified
                && s.bookings[booking].status == InProgress && s.bookings[booking].completionProofAt.Some?
                && s.bookings[booking].timer.Some? && s.bookings[booking].timer.value.stoppedAt.Some?)
            && (Attempt(s, step, c).Some? ==>
                  Do(s, step, c) == s.(issued := s.issued + 1, bookings := s.bookings[booking :=
                    s.bookings[booking].(completionCode := Some(Code(s.issued, digits, s.now + c.otpTtlMs, 0)))]))
  {
  }

  lemma FinishRule(s: State, tasker: int, booking: int, digits: string, c: Config)
    ensures var step := FinishWork(tasker, booking, digits);
            && (Attempt(s, step, c).Some? <==>
                && booking in s.bookings && AwaitsFinish(s.bookings[booking], tasker)
                && CodeIsGood(s.bookings[booking].completionCode, s.now, c.otpMaxAttempts))
            && (Attempt(s, step, c).Some? ==>
                  var b := s.bookings[booking]; var code := b.completionCode.value;
                  Do(s, step, c) ==
                  if digits == code.digits
                  then s.(completedTasks := CountedUp(s.completedTasks, tasker), bookings := s.bookings[booking :=
                         b.(status := Completed, submittedAt := b.completionProofAt, approvedAt := Some(s.now),
                            completionVerifiedAt := Some(s.now), taskCompletedAt := Some(s.now),
                            completionCode := None)])
                  else s.(failed := s.failed + [code.serial], bookings := s.bookings[booking :=
                         b.(completionCode := Some(code.(attempts := code.attempts + 1)))]))
  {
  }

  function CountedUp(counts: map<int, nat>, tasker: int): map<int, nat> {
    if tasker in counts then counts[tasker := counts[tasker] + 1] else counts[tasker := 1]
  }

  // ---- Completion without a code ----

  /** The customer approves: finished work of their own, proved where that is needed, and not disputed. */
  lemma ApprovalRule(s: State, customer: int, booking: int, c: Config)
    ensures var step := CompleteByCustomer(customer, booking);
            && (Attempt(s, step, c).Some? <==>
                && booking in s.bookings && s.bookings[booking].customer == customer
                && (s.bookings[booking].status == InProgress || s.bookings[booking].status == AwaitingApproval)
                && (s.bookings[booking].verified ==> s.bookings[booking].completionProofAt.Some?)
                && s.bookings[booking].timer.Some? && s.bookings[booking].timer.value.status == Stopped
                && !UnderDispute(s, booking))
            && (Attempt(s, step, c).Some? ==>
                  var b := s.bookings[booking];
                  Do(s, step, c) == s.(
                    completedTasks := CountedUp(s.completedTasks, b.tasker),
                    bookings := s.bookings[booking := b.(
                      status := Completed, approvedAt := Some(s.now), taskCompletedAt := Some(s.now),
                      submittedAt := if b.submittedAt.Some? then b.submittedAt
                                     else if b.completionProofAt.Some? then b.completionProofAt else Some(s.now),
                      completionVerifiedAt := if b.verified then Some(s.now) else b.completionVerifiedAt)]))
  {
    DisputesSeen(s, booking, 0);
    hide HasActiveDispute, UnderDispute;
  }

  /**
   * The sweep approves: submitted work whose time for approval ran out
   * before the sweep began, unverified and undisputed.
   */
  lemma AutoApprovalRule(s: State, booking: int, sweptAt: int, c: Config)
    ensures var step := AutoApprove(booking, sweptAt);
            && (Attempt(s, step, c).Some? <==>
                && sweptAt <= s.now && booking in s.bookings && !s.bookings[booking].verified
                && s.bookings[booking].status == AwaitingApproval && s.bookings[booking].payment != OnHold
                && s.bookings[booking].approvalDueAt.Some? && s.bookings[booking].approvalDueAt.value <= sweptAt
                && !UnderDispute(s, booking))
            && (Attempt(s, step, c).Some? ==>
                  Do(s, step, c) == s.(
                    completedTasks := CountedUp(s.completedTasks, s.bookings[booking].tasker),
                    bookings := s.bookings[booking := s.bookings[booking].(
                      status := Completed, approvedAt := Some(sweptAt), autoApprovedAt := Some(sweptAt),
                      taskCompletedAt := Some(sweptAt))]))
  {
    DisputesSeen(s, booking, 0);
    hide HasActiveDispute, UnderDispute;
  }

  // ---- The timer ----

  /**
   * Work without verification: started on arrival, submitted when
   * stopped, and then due for approval after the window.
   */
  lemma LegacyRule(s: State, tasker: int, booking: int, c: Config)
    ensures var start, submit := StartTimer(tasker, booking), SubmitCompletion(tasker, booking);
            && (Attempt(s, start, c).Some? <==>
                && booking in s.bookings && s.bookings[booking].tasker == tasker && !s.bookings[booking].verified
                && s.bookings[booking].status == Arrived && s.bookings[booking].timer.None?)
            && (Attempt(s, start, c).Some? ==>
                  Do(s, start, c) == s.(bookings := s.bookings[booking := s.bookings[booking].(
                    status := InProgress, timer := Some(Timer(Running, s.now, None, None, 0)))]))
            && (Attempt(s, submit, c).Some? <==>
                && booking in s.bookings && s.bookings[booking].tasker == tasker && !s.bookings[booking].verified
                && s.bookings[booking].status == InProgress
                && s.bookings[booking].timer.Some? && s.bookings[booking].timer.value.status == Stopped)
            && (Attempt(s, submit, c).Some? ==>
                  Do(s, submit, c) == s.(bookings := s.bookings[booking := s.bookings[booking].(
                    status := AwaitingApproval, submittedAt := Some(s.now),
                    approvalDueAt := Some(s.now + c.approvalMs))]))
  {
  }

  /** Pausing, resuming and stopping, by the tasker and each from its own statuses; what was paused is added up. */
  lemma TimerRule(s: State, tasker: int, booking: int, c: Config)
    ensures var pause, resume, stop := PauseTimer(tasker, booking), ResumeTimer(tasker, booking),
                                       StopTimer(tasker, booking);
            var own := booking in s.bookings && s.bookings[booking].tasker == tasker && s.bookings[booking].timer.Some?;
            && (Attempt(s, pause, c).Some? <==> own && s.bookings[booking].timer.value.status == Running)
            && (Attempt(s, resume, c).Some? <==>
                own && s.bookings[booking].timer.value.status == Paused
                && s.bookings[booking].timer.value.pausedAt.Some?)
            && (Attempt(s, stop, c).Some? <==>
                own && s.bookings[booking].timer.value.status != Stopped && !s.bookings[booking].verified)
            && (own ==>
                  var b := s.bookings[booking]; var t := b.timer.value;
                  && (Attempt(s, pause, c).Some? ==>
                        Do(s, pause, c) == s.(bookings := s.bookings[booking := b.(timer :=
                          Some(t.(status := Paused, pausedAt := Some(s.now))))]))
                  && (Attempt(s, resume, c).Some? ==>
                        Do(s, resume, c) == s.(bookings := s.bookings[booking := b.(timer :=
                          Some(t.(status := Running, pausedAt := None,
                                  pausedSecs := t.pausedSecs + SecondsPaused(t, s.now))))]))
                  && (Attempt(s, stop, c).Some? ==>
                        Do(s, stop, c) == s.(bookings := s.bookings[booking := b.(timer :=
                          Some(t.(status := Stopped, pausedAt := None, stoppedAt := Some(s.now),
                                  pausedSecs := t.pausedSecs + SecondsPaused(t, s.now))))])))
  {
  }

  predicate IsBeforeWork(status: Status) {
    status != InProgress && status != AwaitingApproval && status != Completed && status != Cancelled
  }

  /** Before work a booking moves between those statuses or is cancelled, and a payment is only written down. */
  lemma SurroundingsRule(s: State, booking: int, status: Status, payment: Payment, paid: bool, c: Config)
    ensures Do(s, Travel(booking, status), c) ==
            if booking in s.bookings && IsBeforeWork(s.bookings[booking].status) && IsBeforeWork(status)
            then s.(bookings := s.bookings[booking := s.bookings[booking].(status := status)]) else s
    ensures Do(s, Cancel(booking), c) ==
            if booking in s.bookings && IsBeforeWork(s.bookings[booking].status)
            then s.(bookings := s.bookings[booking := s.bookings[booking].(status := Cancelled)]) else s
    ensures Do(s, SetPayment(booking, payment, paid), c) ==
            if booking in s.bookings
            then s.(bookings := s.bookings[booking := s.bookings[booking].(payment := payment, paid := paid)]) else s
  {
  }

  /** A booking is new, of two people, and nothing has happened to it yet. */
  lemma NewBookingRule(s: State, booking: int, customer: int, tasker: int, verified: bool, minutes: nat, c: Config)
    ensures var s' := Do(s, Create(booking, customer, tasker, verified, minutes), c);
            var may := booking !in s.bookings && customer != tasker;
            && (!may ==> s' == s)
            && (may ==>
                  && booking in s'.bookings && s' == s.(bookings := s.bookings[booking := s'.bookings[booking]])
                  && var b := s'.bookings[booking];
                     && b.customer == customer && b.tasker == tasker && b.verified == verified && b.status == Pending
                     && b.frontDoor == b.completion == None && b.startCode == b.completionCode == None
                     && b.timer == None && b.submittedAt == b.approvedAt == b.taskCompletedAt == None
                     && b.estimatedMinutes == minutes && b.extensionMinutes == 0)
  {
  }

  /**
   * The customer accepts a longer duration: of completed work under
   * review; the extension then covers the minutes worked.
   */
  lemma ReviewRule(s: State, customer: int, booking: int, c: Config)
    ensures var step := ApproveDurationReview(customer, booking);
            && (Attempt(s, step, c).Some? <==>
                && booking in s.bookings && s.bookings[booking].customer == customer
                && s.bookings[booking].status == Completed && s.bookings[booking].payment == ReviewRequired
                && s.bookings[booking].timer.Some? && s.bookings[booking].timer.value.stoppedAt.Some?)
            && (Attempt(s, step, c).Some? ==>
                  var b := s.bookings[booking]; var missing := WorkedMinutes(b.timer.value) - b.estimatedMinutes;
                  Do(s, step, c) == s.(bookings := s.bookings[booking := b.(
                    payment := Ready,
                    extensionMinutes := if missing > b.extensionMinutes then missing else b.extensionMinutes)]))
  {
    hide WorkedMinutes;
  }

  /** Worked minutes are the seconds on the timer without its pauses, rounded up, and one at least. */
  lemma WorkedMinutesRoundUp(t: Timer)
    requires t.stoppedAt.Some?
    ensures var seconds := (t.stoppedAt.value - t.startedAt) / 1000 - t.pausedSecs; var minutes := WorkedMinutes(t);
            && minutes >= 1 && minutes * 60 >= seconds && (minutes > 1 ==> (minutes - 1) * 60 < seconds)
  {
  }

  // ---- Disputes ----

  /** A payment that a dispute puts on hold, unless it is concluded. */
  function OnHoldUnlessConcluded(payment: Payment): Payment {
    match payment
    case Paid => Paid
    case CashConfirmed => CashConfirmed
    case PartiallyRefunded => PartiallyRefunded
    case Refunded => Refunded
    case Failed => Failed
    case _ => OnHold
  }

  lemma HoldsUnlessConcluded(payment: Payment)
    ensures OnHoldUnlessConcluded(payment) == if Concluded(payment) then payment else OnHold
  {
  }

  /** The last moment of the filing window, for work that was submitted, approved or completed. */
  function FilingCloses(b: Booking, window: nat): Option<int> {
    match (b.taskCompletedAt, b.approvedAt, b.submittedAt)
    case (Some(completed), _, _) => Some(completed + window)
    case (None, Some(approved), _) => Some(approved + window)
    case (None, None, Some(submitted)) => Some(submitted + window)
    case _ => None
  }

  /**
   * Whether a dispute may be opened: by a participant, once per key,
   * within the window or for a no-show, one at a time.
   */
  predicate FilingAllowed(s: State, user: int, asTasker: bool, booking: int, noShow: bool, key: Option<string>,
                          c: Config) {
    && booking in s.bookings && s.bookings[booking].status != Cancelled
    && (if asTasker then s.bookings[booking].tasker == user else s.bookings[booking].customer == user)
    && (key.Some? ==> forall d :: d in s.disputes && s.disputes[d].filedBy == user ==> s.disputes[d].key != key)
    && (if noShow then asTasker && s.bookings[booking].status == Arrived
        else FilingCloses(s.bookings[booking], c.filingWindowMs).Some?
             && s.now <= FilingCloses(s.bookings[booking], c.filingWindowMs).value)
    && !UnderDispute(s, booking)
  }

  /** Opening a dispute: it is open, its payment on hold unless concluded, and a no-show cancels the booking. */
  lemma FilingRule(s: State, user: int, asTasker: bool, booking: int, dispute: int, noShow: bool, key: Option<string>,
                   c: Config)
    requires dispute !in s.disputes
    ensures MayFile(s, user, asTasker, booking, noShow, key, c) <==>
            FilingAllowed(s, user, asTasker, booking, noShow, key, c)
    ensures var step := FileComplaint(user, asTasker, booking, dispute, noShow, key);
            && (Attempt(s, step, c).Some? <==> FilingAllowed(s, user, asTasker, booking, noShow, key, c))
            && (Attempt(s, step, c).Some? ==>
                  var b := s.bookings[booking];
                  Do(s, step, c) == s.(
                    disputes := s.disputes[dispute := Dispute(booking, user, key, Open, 0, 0, {}, NoRefund)],
                    bookings := s.bookings[booking :=
                      b.(payment := OnHoldUnlessConcluded(b.payment),
                         status := if noShow then Cancelled else b.status)]))
  {
    DisputesSeen(s, booking, dispute);
    hide HasActiveDispute, UnderDispute;
  }

  predicate AppealAllowed(s: State, user: int, asTasker: bool, dispute: int, c: Config) {
    && dispute in s.disputes && s.disputes[dispute].booking in s.bookings
    && (var b := s.bookings[s.disputes[dispute].booking]; if asTasker then b.tasker == user else b.customer == user)
    && (s.disputes[dispute].status == Resolved || s.disputes[dispute].status == Dismissed)
    && user !in s.disputes[dispute].appeals && s.now <= s.disputes[dispute].closedAt + c.appealWindowMs
    && !UnderOtherDispute(s, s.disputes[dispute].booking, dispute)
  }

  /**
   * Appealing: once for each participant, in time, while no other
   * dispute is active; the payment goes on hold again.
   */
  lemma AppealRule(s: State, user: int, asTasker: bool, dispute: int, c: Config)
    ensures MayAppeal(s, user, asTasker, dispute, c) <==> AppealAllowed(s, user, asTasker, dispute, c)
    ensures var step := Appeal(user, asTasker, dispute);
            && (Attempt(s, step, c).Some? <==> AppealAllowed(s, user, asTasker, dispute, c))
            && (Attempt(s, step, c).Some? ==>
                  var d := s.disputes[dispute]; var b := s.bookings[d.booking];
                  Do(s, step, c) == s.(
                    disputes := s.disputes[dispute := d.(status := UnderInvestigation, appealCount := d.appealCount + 1,
                                                         appeals := d.appeals + {user})],
                    bookings := s.bookings[d.booking := b.(payment := OnHoldUnlessConcluded(b.payment))]))
  {
    if dispute in s.disputes {
      DisputesSeen(s, s.disputes[dispute].booking, dispute);
    }
    hide HasOtherActive, UnderOtherDispute;
  }

  /** Withdrawing is for the one who filed, while no refund is under way; taking up again is for closed disputes. */
  lemma WithdrawalRule(s: State, user: int, dispute: int, c: Config)
    requires dispute in s.disputes
    ensures var d := s.disputes[dispute];
            && (Attempt(s, Withdraw(user, dispute), c).Some? <==>
                d.filedBy == user && IsActive(d.status) && d.refund != Underway)
            && (Attempt(s, Withdraw(user, dispute), c).Some? ==>
                  Do(s, Withdraw(user, dispute), c) ==
                  s.(disputes := s.disputes[dispute := d.(status := Withdrawn, closedAt := s.now)]))
            && (Attempt(s, Reopen(dispute), c).Some? <==>
                (d.status == Resolved || d.status == Dismissed) && !UnderOtherDispute(s, d.booking, dispute))
            && (Attempt(s, Reopen(dispute), c).Some? ==>
                  Do(s, Reopen(dispute), c) == s.(disputes := s.disputes[dispute := d.(status := UnderInvestigation)]))
  {
    DisputesSeen(s, s.disputes[dispute].booking, dispute);
    hide HasOtherActive, UnderOtherDispute;
  }

  /** An active dispute is investigated, escalated, resolved or dismissed. */
  lemma DecisionRule(s: State, dispute: int, flag: bool, c: Config)
    requires dispute in s.disputes
    ensures var d := s.disputes[dispute];
            && (Attempt(s, Investigate(dispute, flag), c).Some? <==> IsActive(d.status))
            && (IsActive(d.status) ==> Do(s, Investigate(dispute, flag), c) == s.(disputes := s.disputes[dispute :=
                  d.(status := if flag then Escalated else UnderInvestigation)]))
            && (Attempt(s, Close(dispute, flag), c).Some? <==> IsActive(d.status))
            && (IsActive(d.status) ==> Do(s, Close(dispute, flag), c) == s.(disputes := s.disputes[dispute :=
                  d.(status := if flag then Dismissed else Resolved, closedAt := s.now)]))
  {
  }

  /** A refund is submitted for an active dispute about a paid booking, one at a time. */
  lemma RefundRule(s: State, dispute: int, c: Config)
    requires dispute in s.disputes
    ensures var d := s.disputes[dispute];
            && (Attempt(s, SubmitRefund(dispute), c).Some? <==>
                && IsActive(d.status) && d.refund != Underway && d.booking in s.bookings
                && (s.bookings[d.booking].payment == Paid || s.bookings[d.booking].payment == PartiallyRefunded))
            && (Attempt(s, SubmitRefund(dispute), c).Some? ==>
                  Do(s, SubmitRefund(dispute), c) == s.(disputes := s.disputes[dispute := d.(refund := Underway,
                    status := if d.status == Open then UnderInvestigation else d.status)]))
  {
  }

  /** Later reports only need a refund: whatever the dispute's status, they are written down. */
  lemma ReportRule(s: State, dispute: int, c: Config)
    requires dispute in s.disputes
    ensures var d := s.disputes[dispute];
            && (d.refund != NoRefund ==>
                  && Do(s, RefundPending(dispute), c) == s.(disputes := s.disputes[dispute := d.(refund := Underway)])
                  && Do(s, RefundSettled(dispute), c) ==
                     s.(disputes := s.disputes[dispute := d.(status := Resolved, closedAt := s.now, refund := Applied)])
                  && Do(s, RefundFailed(dispute), c) ==
                     s.(disputes := s.disputes[dispute := d.(refund := Undone,
                       status := if d.status == Resolved then UnderInvestigation else d.status)]))
            && (d.refund == NoRefund ==>
                  Do(s, RefundPending(dispute), c) == Do(s, RefundSettled(dispute), c)
                  == Do(s, RefundFailed(dispute), c) == s)
  {
  }

  // ---- How long a code can be used ----

  /** The customer's request for a code to start or to finish. */
  predicate Issues(step: Step, id: int, atStart: bool, digits: string) {
    || (atStart && step.IssueStartCode? && step.booking == id && step.digits == digits)
    || (!atStart && step.IssueCompletionCode? && step.booking == id && step.digits == digits)
  }

  /** A code with this number is out. */
  predicate IsOut(s: State, id: int, atStart: bool, serial: nat) {
    CodeAt(s, id, atStart).Some? && CodeAt(s, id, atStart).value.serial == serial
  }

  /** The step that issued this code, at this time, after which it stayed out. */
  ghost predicate IssuedBy(steps: seq<Step>, c: Config, i: nat, id: int, atStart: bool, code: Code) {
    && i < |steps| && Issues(steps[i], id, atStart, code.digits)
    && code.expiresAt == Run(steps[..i], c).now + c.otpTtlMs
    && forall j :: i < j <= |steps| ==> IsOut(Run(steps[..j], c), id, atStart, code.serial)
  }

  lemma FreshCodeIsIssued(s: State, step: Step, c: Config, id: int, atStart: bool)
    requires Happens(s, Do(s, step, c), id, atStart, Fresh) && IsAbout(step, id, atStart)
    ensures var code := CodeAt(Do(s, step, c), id, atStart).value;
            Issues(step, id, atStart, code.digits) && code.expiresAt == s.now + c.otpTtlMs
  {
    hide Do, Attempt;
    match step {
      case IssueStartCode(customer, booking, digits) => StartCodeRule(s, customer, booking, digits, c);
      case IssueCompletionCode(customer, booking, digits) => CompletionCodeRule(s, customer, booking, digits, c);
      case StartWork(tasker, booking, digits) => ComparisonIssuesNothing(s, step, c);
      case FinishWork(tasker, booking, digits) => ComparisonIssuesNothing(s, step, c);
      case _ =>
    }
    assert Attempt(s, step, c).None? ==> Do(s, step, c) == s by { RefusedMeansSame(s, step, c); }
  }

  lemma RefusedMeansSame(s: State, step: Step, c: Config)
    ensures Attempt(s, step, c).None? ==> Do(s, step, c) == s
  {
  }

  lemma ComparisonIssuesNothing(s: State, step: Step, c: Config)
    requires step.StartWork? || step.FinishWork?
    ensures Do(s, step, c).issued == s.issued
  {
  }

  /** Every code that is out was issued by a step of the run and has been out ever since. */
  lemma {:induction false} CodesComeFromIssues(steps: seq<Step>, c: Config, id: int, atStart: bool) returns (i: nat)
    requires CodeAt(Run(steps, c), id, atStart).Some?
    ensures IssuedBy(steps, c, i, id, atStart, CodeAt(Run(steps, c), id, atStart).value)
  {
    hide Do, CodeAt;
    assert steps != [] by { NoCodeYet(id, atStart); }
    var n := |steps| - 1;
    var before, last := Run(steps[..n], c), steps[n];
    var code := CodeAt(Run(steps, c), id, atStart).value;
    assert steps[..|steps|] == steps;
    var fate := CodeFate(before, last, c, id, atStart);
    if fate.Fresh? {
      i := n;
      FreshCodeIsIssued(before, last, c, id, atStart);
    } else {
      i := CodesComeFromIssues(steps[..n], c, id, atStart);
      forall j | i < j <= |steps| ensures IsOut(Run(steps[..j], c), id, atStart, code.serial) {
        if j <= n {
          assert steps[..n][..j] == steps[..j];
          assert IsOut(Run(steps[..n][..j], c), id, atStart, code.serial);
        }
      }
      assert steps[..n][..i] == steps[..i];
    }
  }

  lemma NoCodeYet(id: int, atStart: bool)
    ensures CodeAt(INITIAL, id, atStart).None?
  {
  }

  lemma {:induction false} ClockAdvances(steps: seq<Step>, c: Config, i: nat)
    requires i <= |steps|
    ensures Run(steps[..i], c).now <= Run(steps, c).now
  {
    hide Do;
    if i == |steps| {
      assert steps[..i] == steps;
    } else {
      var n := |steps| - 1;
      ClockAdvances(steps[..n], c, i);
      assert steps[..n][..i] == steps[..i];
      ClockOnlyAdvances(Run(steps[..n], c), steps[n], c);
    }
  }

  lemma ClockOnlyAdvances(s: State, step: Step, c: Config)
    ensures Do(s, step, c).now >= s.now
  {
    if IsVerifiedStep(step) {
      VerifiedStepDoes(s, step, c);
      VerifiedStepKeepsClock(s, step, c);
    }
    hide HasActiveDispute, HasOtherActive, MayFile, MayAppeal, MayReassign;
  }

  lemma VerifiedStepKeepsClock(s: State, step: Step, c: Config)
    requires IsVerifiedStep(step)
    ensures Do(s, step, c).now == s.now
  {
    hide HasActiveDispute, FrontDoorAttached, CompletionAttached, StartCodeIssued, CompletionCodeIssued, MayStart,
         MayFinish;
  }

  /** These digits were issued for the booking not before, and less than their lifetime before, the end of the run. */
  ghost predicate IssuedInTime(steps: seq<Step>, c: Config, id: int, atStart: bool, digits: string) {
    exists i :: && 0 <= i < |steps| && Issues(steps[i], id, atStart, digits)
                && Run(steps[..i], c).now <= Run(steps, c).now < Run(steps[..i], c).now + c.otpTtlMs
  }

  lemma GoodCodeIsInTime(steps: seq<Step>, c: Config, id: int, atStart: bool)
    requires CodeIsGood(CodeAt(Run(steps, c), id, atStart), Run(steps, c).now, c.otpMaxAttempts)
    ensures IssuedInTime(steps, c, id, atStart, CodeAt(Run(steps, c), id, atStart).value.digits)
  {
    hide Run, CodeAt;
    var i := CodesComeFromIssues(steps, c, id, atStart);
    ClockAdvances(steps, c, i);
  }

  /**
   * Verified work only ever starts by the right digits of a code that was issued
   * for this booking less than its lifetime before, whatever happened in between.
   */
  lemma WorkStartsInTime(steps: seq<Step>, c: Config, step: Step, id: int)
    requires id in Run(steps, c).bookings && Run(steps, c).bookings[id].verified
    requires Run(steps, c).bookings[id].status != InProgress
    requires id in Run(steps + [step], c).bookings && Run(steps + [step], c).bookings[id].status == InProgress
    ensures step.StartWork? && step.booking == id && step.tasker == Run(steps, c).bookings[id].tasker
    ensures IssuedInTime(steps, c, id, true, step.digits)
  {
    var s := Run(steps, c);
    assert (steps + [step])[..|steps|] == steps;
    RunKeepsInv(steps, c);
    hide Run;
    OnlyStartWorkStarts(s, step, c, id);
    assert BookingOk(s.bookings[id], s.now);
    StartRule(s, step.tasker, id, step.digits, c);
    hide Do, Attempt;
    assert Attempt(s, step, c).None? ==> Do(s, step, c) == s by { RefusedMeansSame(s, step, c); }
    GoodCodeIsInTime(steps, c, id, true);
  }

  lemma OnlyStartWorkStarts(s: State, step: Step, c: Config, id: int)
    requires id in s.bookings && s.bookings[id].verified && s.bookings[id].status != InProgress
    requires id in Do(s, step, c).bookings && Do(s, step, c).bookings[id].status == InProgress
    ensures step.StartWork? && step.booking == id
  {
    if IsVerifiedStep(step) {
      VerifiedStepDoes(s, step, c);
      hide Do, HasActiveDispute;
    } else {
      hide HasActiveDispute, HasOtherActive, AttemptVerified, MayFile, MayAppeal, MayReassign;
    }
  }

  /** By a code work is only ever finished with the right digits of one issued less than its lifetime before. */
  lemma WorkFinishesInTime(steps: seq<Step>, c: Config, tasker: int, id: int, digits: string)
    requires id in Run(steps, c).bookings && Run(steps, c).bookings[id].status != Completed
    requires var after := Run(steps + [FinishWork(tasker, id, digits)], c);
             id in after.bookings && after.bookings[id].status == Completed
    ensures Run(steps, c).bookings[id].tasker == tasker
    ensures IssuedInTime(steps, c, id, false, digits)
  {
    var s, step := Run(steps, c), FinishWork(tasker, id, digits);
    assert (steps + [step])[..|steps|] == steps;
    hide Run;
    FinishRule(s, tasker, id, digits, c);
    hide Do, Attempt;
    assert Attempt(s, step, c).None? ==> Do(s, step, c) == s by { RefusedMeansSame(s, step, c); }
    GoodCodeIsInTime(steps, c, id, false);
  }
}
