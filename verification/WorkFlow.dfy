/**
 * From arrival to completion: proofs, one-time codes, the timer, the three ways
 * to complete a booking, and the disputes about it. Every step is a transaction
 * under the booking's row lock; it takes its full effect or is refused.
 */
module WorkFlow {
  import opened Common

  // ---- Rows ----

  datatype Status = Pending | AwaitingPayment | Confirmed | EnRoute | Arrived | InProgress | AwaitingApproval
    | Completed | Cancelled

  /** The statuses before any work has started. */
  predicate Early(status: Status) {
    status in {Pending, AwaitingPayment, Confirmed, EnRoute, Arrived}
  }

  datatype Image = Image(tasker: int, publicId: string, capturedAt: int)

  /** A one-time code; every code ever issued has its own number. */
  datatype Code = Code(serial: nat, digits: string, expiresAt: int, attempts: nat)

  datatype TimerStatus = Running | Paused | Stopped

  datatype Timer = Timer(status: TimerStatus, startedAt: int, pausedAt: Option<int>, stoppedAt: Option<int>,
                         pausedSecs: nat)

  datatype Payment = Ready | Processing | OnHold | ReviewRequired | Paid | PartiallyRefunded | Refunded | CashConfirmed
    | Failed | Other

  /** Payments that a dispute no longer puts on hold. */
  predicate Concluded(payment: Payment) {
    payment in {Paid, CashConfirmed, PartiallyRefunded, Refunded, Failed}
  }

  datatype Booking = Booking(
    customer: int, tasker: int, verified: bool, status: Status,
    frontDoor: Option<Image>, frontDoorVerifiedAt: Option<int>, startCode: Option<Code>, startVerifiedAt: Option<int>,
    timer: Option<Timer>,
    completion: Option<Image>, completionProofAt: Option<int>, completionCode: Option<Code>,
    completionVerifiedAt: Option<int>,
    submittedAt: Option<int>, approvalDueAt: Option<int>, approvedAt: Option<int>, autoApprovedAt: Option<int>,
    taskCompletedAt: Option<int>,
    payment: Payment, paid: bool, estimatedMinutes: nat, extensionMinutes: nat)

  datatype DisputeStatus = Open | UnderInvestigation | Escalated | Resolved | Dismissed | Withdrawn

  predicate ActiveDispute(d: Dispute) {
    d.status in {Open, UnderInvestigation, Escalated}
  }

  /** What became of the refund that is to resolve a dispute, as last reported. */
  datatype Refund = NoRefund | Underway | Applied | Undone

  datatype Dispute = Dispute(booking: int, filedBy: int, key: Option<string>, status: DisputeStatus, closedAt: int,
                             appealCount: nat, appeals: set<int>, refund: Refund)

  /** `failed` lists, for each comparison with a code that did not match, the number of the code. */
  datatype State = State(now: nat, bookings: map<int, Booking>, disputes: map<int, Dispute>,
                         completedTasks: map<int, nat>, issued: nat, failed: seq<nat>)

  datatype Config = Config(otpTtlMs: nat, otpMaxAttempts: nat, approvalMs: nat, filingWindowMs: nat,
                           appealWindowMs: nat)

  const INITIAL: State := State(0, map[], map[], map[], 0, [])

  datatype Step =
    | Wait(ms: nat)
    | Create(booking: int, customer: int, tasker: int, verified: bool, minutes: nat)
    | Travel(booking: int, status: Status)
    | Cancel(booking: int)
    | Reassign(booking: int, tasker: int, approved: bool)
    | AttachFrontDoor(tasker: int, booking: int, publicId: string)
    | IssueStartCode(customer: int, booking: int, digits: string)
    | StartWork(tasker: int, booking: int, digits: string)
    | StartTimer(tasker: int, booking: int)
    | PauseTimer(tasker: int, booking: int)
    | ResumeTimer(tasker: int, booking: int)
    | StopTimer(tasker: int, booking: int)
    | AttachCompletion(tasker: int, booking: int, publicId: string)
    | IssueCompletionCode(customer: int, booking: int, digits: string)
    | FinishWork(tasker: int, booking: int, digits: string)
    | SubmitCompletion(tasker: int, booking: int)
    | CompleteByCustomer(customer: int, booking: int)
    | AutoApprove(booking: int, sweptAt: int)
    | SetPayment(booking: int, payment: Payment, paid: bool)
    | ApproveDurationReview(customer: int, booking: int)
    | FileComplaint(user: int, asTasker: bool, booking: int, dispute: int, noShow: bool, key: Option<string>)
    | Withdraw(user: int, dispute: int)
    | Appeal(user: int, asTasker: bool, dispute: int)
    | Investigate(dispute: int, escalate: bool)
    | Close(dispute: int, dismissed: bool)
    | Reopen(dispute: int)
    | SubmitRefund(dispute: int)
    | RefundPending(dispute: int)
    | RefundSettled(dispute: int)
    | RefundFailed(dispute: int)

  // ---- Helpers of the transactions ----

  function With(s: State, id: int, b: Booking): State {
    s.(bookings := s.bookings[id := b])
  }

  function Increment(counts: map<int, nat>, tasker: int): map<int, nat> {
    counts[tasker := (if tasker in counts then counts[tasker] else 0) + 1]
  }

  /** Whole seconds of the running pause. */
  function PauseSecs(t: Timer, now: int): nat {
    if t.status.Paused? && t.pausedAt.Some? && now > t.pausedAt.value then (now - t.pausedAt.value) / 1000 else 0
  }

  function StoppedTimer(t: Timer, now: int): Timer {
    Timer(Stopped, t.startedAt, None, Some(now), t.pausedSecs + PauseSecs(t, now))
  }

  predicate TimerIs(b: Booking, statuses: set<TimerStatus>) {
    b.timer.Some? && b.timer.value.status in statuses
  }

  predicate HasActiveDispute(s: State, booking: int) {
    exists d :: d in s.disputes && s.disputes[d].booking == booking && ActiveDispute(s.disputes[d])
  }

  predicate HasOtherActive(s: State, booking: int, dispute: int) {
    exists d :: d in s.disputes && d != dispute && s.disputes[d].booking == booking && ActiveDispute(s.disputes[d])
  }

  // ---- Before and during work ----

  function NewBooking(customer: int, tasker: int, verified: bool, minutes: nat): Booking {
    Booking(customer, tasker, verified, Pending, None, None, None, None, None, None, None, None, None, None, None, None,
            None, None, Ready, false, minutes, 0)
  }

  /**
   * What an administrator's reassignment asks for: work not begun, nothing disputed or
   * settled, another approved tasker.
   */
  predicate MayReassign(s: State, booking: int, tasker: int, approved: bool) {
    && booking in s.bookings && !HasActiveDispute(s, booking)
    && s.bookings[booking].status in {Pending, Confirmed, EnRoute, Arrived}
    && s.bookings[booking].payment !in {Paid, PartiallyRefunded, Refunded}
    && tasker != s.bookings[booking].tasker && approved
  }

  function FrontDoorAttached(b: Booking, tasker: int, publicId: string, now: int): Option<Booking> {
    if b.tasker != tasker || !b.verified || b.status != Arrived then None
    else if b.frontDoor.Some? then (if b.frontDoor.value.publicId == publicId then Some(b) else None)
    else Some(b.(frontDoor := Some(Image(tasker, publicId, now)), frontDoorVerifiedAt := Some(now)))
  }

  function StartCodeIssued(b: Booking, customer: int, code: Code): Option<Booking> {
    if b.customer != customer || !b.verified || b.status != Arrived || b.frontDoorVerifiedAt.None? then None
    else Some(b.(startCode := Some(code)))
  }

  /** Whether a code may still be compared. */
  predicate Comparable(code: Option<Code>, now: int, max: nat) {
    code.Some? && now < code.value.expiresAt && code.value.attempts < max
  }

  predicate MayStart(b: Booking, tasker: int, now: int, max: nat) {
    && b.tasker == tasker && b.verified && b.status == Arrived && b.frontDoorVerifiedAt.Some?
    && Comparable(b.startCode, now, max)
  }

  function Missed(code: Code): Code {
    code.(attempts := code.attempts + 1)
  }

  function WorkStarted(b: Booking, now: int): Booking {
    b.(status := InProgress, timer := Some(Timer(Running, now, None, None, 0)), startVerifiedAt := Some(now),
       startCode := None)
  }

  function CompletionAttached(b: Booking, tasker: int, publicId: string, now: int): Option<Booking> {
    if b.tasker != tasker || !b.verified || b.status != InProgress then None
    else if b.completion.Some? then (if b.completion.value.publicId == publicId then Some(b) else None)
    else if !TimerIs(b, {Running, Paused}) then None
    else Some(b.(timer := Some(StoppedTimer(b.timer.value, now)), completion := Some(Image(tasker, publicId, now)),
                 completionProofAt := Some(now)))
  }

  function CompletionCodeIssued(b: Booking, customer: int, code: Code): Option<Booking> {
    if b.customer != customer || !b.verified || b.status != InProgress || b.completionProofAt.None? then None
    else if b.timer.None? || b.timer.value.stoppedAt.None? then None
    else Some(b.(completionCode := Some(code)))
  }

  /** Nothing here looks at disputes. */
  predicate MayFinish(b: Booking, tasker: int, now: int, max: nat) {
    && b.tasker == tasker && b.verified && b.status == InProgress && b.completionProofAt.Some?
    && TimerIs(b, {Stopped}) && b.timer.value.stoppedAt.Some?
    && Comparable(b.completionCode, now, max)
  }

  function WorkFinished(b: Booking, now: int): Booking {
    b.(status := Completed, submittedAt := b.completionProofAt, approvedAt := Some(now),
       completionVerifiedAt := Some(now), taskCompletedAt := Some(now), completionCode := None)
  }

  function Or(first: Option<int>, second: Option<int>, last: int): Option<int> {
    if first.Some? then first else if second.Some? then second else Some(last)
  }

  function CompletedByCustomer(b: Booking, now: int): Booking {
    b.(status := Completed, submittedAt := Or(b.submittedAt, b.completionProofAt, now), approvedAt := Some(now),
       completionVerifiedAt := if b.verified then Some(now) else b.completionVerifiedAt, taskCompletedAt := Some(now))
  }

  function AutoApproved(b: Booking, sweptAt: int): Booking {
    b.(status := Completed, approvedAt := Some(sweptAt), autoApprovedAt := Some(sweptAt),
       taskCompletedAt := Some(sweptAt))
  }

  predicate MayComplete(s: State, booking: int, customer: int) {
    && booking in s.bookings && s.bookings[booking].customer == customer
    && s.bookings[booking].status in {InProgress, AwaitingApproval}
    && (s.bookings[booking].verified ==> s.bookings[booking].completionProofAt.Some?)
    && TimerIs(s.bookings[booking], {Stopped})
    && !HasActiveDispute(s, booking)
  }

  /** The sweep read the clock when it started; it may reach the booking later. */
  predicate MayAutoApprove(s: State, booking: int, sweptAt: int) {
    && sweptAt <= s.now
    && booking in s.bookings && !s.bookings[booking].verified
    && !HasActiveDispute(s, booking) && s.bookings[booking].payment != OnHold
    && s.bookings[booking].status == AwaitingApproval
    && s.bookings[booking].approvalDueAt.Some? && s.bookings[booking].approvalDueAt.value <= sweptAt
  }

  /** A booking reaches completion together with its tasker's counter. */
  function Complete(s: State, booking: int, b: Booking): State {
    With(s, booking, b).(completedTasks := Increment(s.completedTasks, b.tasker))
  }

  function WorkedMinutes(t: Timer): nat
    requires t.stoppedAt.Some?
  {
    var elapsed := (t.stoppedAt.value - t.startedAt) / 1000 - t.pausedSecs;
    var seconds := if elapsed > 0 then elapsed else 0;
    var minutes := (seconds + 59) / 60;
    if minutes > 1 then minutes else 1
  }

  function DurationApproved(b: Booking): Booking
    requires b.timer.Some? && b.timer.value.stoppedAt.Some?
  {
    var worked := WorkedMinutes(b.timer.value);
    var required := if worked > b.estimatedMinutes then worked - b.estimatedMinutes else 0;
    b.(extensionMinutes := if b.extensionMinutes > required then b.extensionMinutes else required, payment := Ready)
  }

  // ---- Disputes ----

  /** The moment the filing window counts from. */
  function CompletionAnchor(b: Booking): Option<int> {
    if b.taskCompletedAt.Some? then b.taskCompletedAt else if b.approvedAt.Some? then b.approvedAt else b.submittedAt
  }

  predicate IsParticipant(b: Booking, user: int, asTasker: bool) {
    user == if asTasker then b.tasker else b.customer
  }

  predicate IsReplay(s: State, user: int, key: Option<string>) {
    key.Some? && exists d :: d in s.disputes && s.disputes[d].filedBy == user && s.disputes[d].key == key
  }

  predicate MayFile(s: State, user: int, asTasker: bool, booking: int, noShow: bool, key: Option<string>, c: Config) {
    && booking in s.bookings && IsParticipant(s.bookings[booking], user, asTasker) && !IsReplay(s, user, key)
    && s.bookings[booking].status != Cancelled
    && (if noShow then asTasker && s.bookings[booking].status == Arrived
        else CompletionAnchor(s.bookings[booking]).Some?
             && s.now <= CompletionAnchor(s.bookings[booking]).value + c.filingWindowMs)
    && !HasActiveDispute(s, booking)
  }

  function Held(b: Booking): Booking {
    if Concluded(b.payment) then b else b.(payment := OnHold)
  }

  function Filed(s: State, user: int, booking: int, dispute: int, noShow: bool, key: Option<string>): State
    requires booking in s.bookings
  {
    var b := s.bookings[booking];
    With(s, booking, Held(if noShow then b.(status := Cancelled) else b))
      .(disputes := s.disputes[dispute := Dispute(booking, user, key, Open, 0, 0, {}, NoRefund)])
  }

  predicate MayAppeal(s: State, user: int, asTasker: bool, dispute: int, c: Config) {
    && dispute in s.disputes && s.disputes[dispute].booking in s.bookings
    && IsParticipant(s.bookings[s.disputes[dispute].booking], user, asTasker)
    && s.disputes[dispute].status in {Resolved, Dismissed} && user !in s.disputes[dispute].appeals
    && s.now <= s.disputes[dispute].closedAt + c.appealWindowMs
    && !HasOtherActive(s, s.disputes[dispute].booking, dispute)
  }

  function Appealed(s: State, user: int, dispute: int): State
    requires dispute in s.disputes && s.disputes[dispute].booking in s.bookings
  {
    var d := s.disputes[dispute];
    With(s, d.booking, Held(s.bookings[d.booking]))
      .(disputes := s.disputes[dispute := d.(status := UnderInvestigation, appealCount := d.appealCount + 1,
                                                       appeals := d.appeals + {user})])
  }

  predicate MaySubmitRefund(s: State, dispute: int) {
    && dispute in s.disputes && ActiveDispute(s.disputes[dispute]) && s.disputes[dispute].refund != Underway
    && s.disputes[dispute].booking in s.bookings
    && s.bookings[s.disputes[dispute].booking].payment in {Paid, PartiallyRefunded}
  }

  predicate HasRefund(s: State, dispute: int) {
    dispute in s.disputes && s.disputes[dispute].refund != NoRefund
  }

  /** A failed refund reopens only a dispute that counts as resolved. */
  predicate ReturnsToInvestigation(s: State, dispute: int) {
    HasRefund(s, dispute) && s.disputes[dispute].status == Resolved
  }

  // ---- Steps ----

  function Update(s: State, id: int, b: Option<Booking>): Option<State> {
    if b.Some? then Some(With(s, id, b.value)) else None
  }

  function NewCode(s: State, digits: string, c: Config): Code {
    Code(s.issued, digits, s.now + c.otpTtlMs, 0)
  }

  /** Steps before work, other than those of the verification service. */
  function AttemptBooking(s: State, step: Step): Option<State> {
    match step
    case Wait(ms) => Some(s.(now := s.now + ms))
    case Create(booking, customer, tasker, verified, minutes) =>
      if booking in s.bookings || customer == tasker then None
      else Some(With(s, booking, NewBooking(customer, tasker, verified, minutes)))
    case Travel(booking, status) =>
      // Acceptance, payment, rescheduling, navigation and arrival.
      if booking in s.bookings && Early(s.bookings[booking].status) && Early(status)
      then Some(With(s, booking, s.bookings[booking].(status := status))) else None
    case Cancel(booking) =>
      if booking in s.bookings && Early(s.bookings[booking].status)
      then Some(With(s, booking, s.bookings[booking].(status := Cancelled))) else None
    case Reassign(booking, tasker, approved) =>
      if MayReassign(s, booking, tasker, approved)
      then Some(With(s, booking, s.bookings[booking].(tasker := tasker, status := Pending))) else None
    case SetPayment(booking, payment, paid) =>
      if booking in s.bookings then Some(With(s, booking, s.bookings[booking].(payment := payment, paid := paid)))
      else None
    case ApproveDurationReview(customer, booking) =>
      if booking in s.bookings && s.bookings[booking].customer == customer && s.bookings[booking].status == Completed
         && s.bookings[booking].payment == ReviewRequired
         && s.bookings[booking].timer.Some? && s.bookings[booking].timer.value.stoppedAt.Some?
      then Some(With(s, booking, DurationApproved(s.bookings[booking]))) else None
    case _ => None
  }

  /** Steps of the timer that any booking, or a legacy one, goes through. */
  function AttemptTimer(s: State, step: Step, c: Config): Option<State> {
    match step
    case StartTimer(tasker, booking) =>
      if booking in s.bookings && s.bookings[booking].tasker == tasker && s.bookings[booking].status == Arrived
         && !s.bookings[booking].verified && s.bookings[booking].timer.None?
      then Some(With(s, booking,
                     s.bookings[booking].(status := InProgress, timer := Some(Timer(Running, s.now, None, None, 0)))))
      else None
    case PauseTimer(tasker, booking) =>
      if booking in s.bookings && s.bookings[booking].tasker == tasker && TimerIs(s.bookings[booking], {Running})
      then Some(With(s, booking, s.bookings[booking].(timer :=
                  Some(s.bookings[booking].timer.value.(status := Paused, pausedAt := Some(s.now))))))
      else None
    case ResumeTimer(tasker, booking) =>
      if booking in s.bookings && s.bookings[booking].tasker == tasker && TimerIs(s.bookings[booking], {Paused})
         && s.bookings[booking].timer.value.pausedAt.Some?
      then
        var t := s.bookings[booking].timer.value;
        Some(With(s, booking, s.bookings[booking].(timer :=
                  Some(t.(status := Running, pausedAt := None, pausedSecs := t.pausedSecs + PauseSecs(t, s.now))))))
      else None
    case StopTimer(tasker, booking) =>
      if booking in s.bookings && s.bookings[booking].tasker == tasker && !s.bookings[booking].verified
         && TimerIs(s.bookings[booking], {Running, Paused})
      then Some(With(s, booking,
                     s.bookings[booking].(timer := Some(StoppedTimer(s.bookings[booking].timer.value, s.now)))))
      else None
    case SubmitCompletion(tasker, booking) =>
      if booking in s.bookings && s.bookings[booking].tasker == tasker && !s.bookings[booking].verified
         && s.bookings[booking].status == InProgress && TimerIs(s.bookings[booking], {Stopped})
      then Some(With(s, booking, s.bookings[booking].(status := AwaitingApproval, submittedAt := Some(s.now),
                                                      approvalDueAt := Some(s.now + c.approvalMs))))
      else None
    case _ => None
  }

  /** Steps of the verification service. A code that does not match is counted, not refused. */
  function AttemptVerified(s: State, step: Step, c: Config): Option<State> {
    match step
    case AttachFrontDoor(tasker, booking, publicId) =>
      if booking !in s.bookings then None
      else Update(s, booking, FrontDoorAttached(s.bookings[booking], tasker, publicId, s.now))
    case IssueStartCode(customer, booking, digits) =>
      if booking !in s.bookings || StartCodeIssued(s.bookings[booking], customer, NewCode(s, digits, c)).None? then None
      else Some(With(s, booking, StartCodeIssued(s.bookings[booking], customer, NewCode(s, digits, c)).value)
                .(issued := s.issued + 1))
    case StartWork(tasker, booking, digits) =>
      if booking !in s.bookings || !MayStart(s.bookings[booking], tasker, s.now, c.otpMaxAttempts) then None
      else
        var b := s.bookings[booking];
        var code := b.startCode.value;
        if digits != code.digits
        then Some(With(s, booking, b.(startCode := Some(Missed(code)))).(failed := s.failed + [code.serial]))
        else if b.timer.Some? then None
        else Some(With(s, booking, WorkStarted(b, s.now)))
    case AttachCompletion(tasker, booking, publicId) =>
      if booking !in s.bookings then None
      else Update(s, booking, CompletionAttached(s.bookings[booking], tasker, publicId, s.now))
    case IssueCompletionCode(customer, booking, digits) =>
      if booking !in s.bookings || CompletionCodeIssued(s.bookings[booking], customer, NewCode(s, digits, c)).None?
      then None
      else Some(With(s, booking, CompletionCodeIssued(s.bookings[booking], customer, NewCode(s, digits, c)).value)
                .(issued := s.issued + 1))
    case FinishWork(tasker, booking, digits) =>
      if booking !in s.bookings || !MayFinish(s.bookings[booking], tasker, s.now, c.otpMaxAttempts) then None
      else
        var b := s.bookings[booking];
        var code := b.completionCode.value;
        if digits != code.digits
        then Some(With(s, booking, b.(completionCode := Some(Missed(code)))).(failed := s.failed + [code.serial]))
        else Some(Complete(s, booking, WorkFinished(b, s.now)))
    case CompleteByCustomer(customer, booking) =>
      if !MayComplete(s, booking, customer) then None
      else Some(Complete(s, booking, CompletedByCustomer(s.bookings[booking], s.now)))
    case AutoApprove(booking, sweptAt) =>
      if !MayAutoApprove(s, booking, sweptAt) then None
      else Some(Complete(s, booking, AutoApproved(s.bookings[booking], sweptAt)))
    case _ => None
  }

  function AttemptDispute(s: State, step: Step, c: Config): Option<State> {
    match step
    case FileComplaint(user, asTasker, booking, dispute, noShow, key) =>
      if dispute in s.disputes || !MayFile(s, user, asTasker, booking, noShow, key, c) then None
      else Some(Filed(s, user, booking, dispute, noShow, key))
    case Withdraw(user, dispute) =>
      if dispute in s.disputes && s.disputes[dispute].filedBy == user && ActiveDispute(s.disputes[dispute])
         && s.disputes[dispute].refund != Underway
      then Some(s.(disputes := s.disputes[dispute := s.disputes[dispute].(status := Withdrawn, closedAt := s.now)]))
      else None
    case Appeal(user, asTasker, dispute) =>
      if MayAppeal(s, user, asTasker, dispute, c) then Some(Appealed(s, user, dispute)) else None
    case Investigate(dispute, escalate) =>
      if dispute in s.disputes && ActiveDispute(s.disputes[dispute])
      then Some(s.(disputes := s.disputes[dispute :=
                  s.disputes[dispute].(status := if escalate then Escalated else UnderInvestigation)])) else None
    case Close(dispute, dismissed) =>
      if dispute in s.disputes && ActiveDispute(s.disputes[dispute])
      then Some(s.(disputes := s.disputes[dispute :=
                  s.disputes[dispute].(status := if dismissed then Dismissed else Resolved, closedAt := s.now)]))
      else None
    case Reopen(dispute) =>
      if dispute in s.disputes && s.disputes[dispute].status in {Resolved, Dismissed}
         && !HasOtherActive(s, s.disputes[dispute].booking, dispute)
      then Some(s.(disputes := s.disputes[dispute := s.disputes[dispute].(status := UnderInvestigation)])) else None
    case SubmitRefund(dispute) =>
      if MaySubmitRefund(s, dispute)
      then Some(s.(disputes := s.disputes[dispute :=
                  s.disputes[dispute].(status := if s.disputes[dispute].status.Open? then UnderInvestigation
                                                 else s.disputes[dispute].status, refund := Underway)])) else None
    // What the payment provider reports later looks neither at the booking nor at its other disputes.
    case RefundPending(dispute) =>
      if HasRefund(s, dispute)
      then Some(s.(disputes := s.disputes[dispute := s.disputes[dispute].(refund := Underway)])) else None
    case RefundSettled(dispute) =>
      if HasRefund(s, dispute)
      then Some(s.(disputes := s.disputes[dispute :=
                  s.disputes[dispute].(status := Resolved, closedAt := s.now, refund := Applied)])) else None
    case RefundFailed(dispute) =>
      if HasRefund(s, dispute)
      then Some(s.(disputes := s.disputes[dispute :=
                  s.disputes[dispute].(status := if ReturnsToInvestigation(s, dispute) then UnderInvestigation
                                                 else s.disputes[dispute].status, refund := Undone)])) else None
    case _ => None
  }

  function Attempt(s: State, step: Step, c: Config): Option<State> {
    match step
    case Wait(_) | Create(_, _, _, _, _) | Travel(_, _) | Cancel(_) | Reassign(_, _, _) | SetPayment(_, _, _)
       | ApproveDurationReview(_, _) => AttemptBooking(s, step)
    case StartTimer(_, _) | PauseTimer(_, _) | ResumeTimer(_, _) | StopTimer(_, _) | SubmitCompletion(_, _) =>
      AttemptTimer(s, step, c)
    case FileComplaint(_, _, _, _, _, _) | Withdraw(_, _) | Appeal(_, _, _) | Investigate(_, _) | Close(_, _)
       | Reopen(_)
       | SubmitRefund(_) | RefundPending(_) | RefundSettled(_) | RefundFailed(_) =>
      AttemptDispute(s, step, c)
    case _ => AttemptVerified(s, step, c)
  }

  function Do(s: State, step: Step, c: Config): State {
    match Attempt(s, step, c)
    case None => s
    case Some(s') => s'
  }

  /** The state after any schedule of steps. */
  function Run(steps: seq<Step>, c: Config): State {
    if steps == [] then INITIAL else Do(Run(steps[..|steps| - 1], c), steps[|steps| - 1], c)
  }

  // ---- What must hold of every booking ----

  predicate Past(at: Option<int>, now: int) {
    at.Some? && at.value <= now
  }

  predicate InOrder(a: Option<int>, b: Option<int>) {
    a.Some? && b.Some? && a.value <= b.value
  }

  /** Pauses fit into the time since the start, and a running pause began after it. */
  predicate TimerOk(t: Timer, now: int) {
    && t.startedAt <= now
    && (t.status.Stopped? <==> t.stoppedAt.Some?)
    && (t.status.Paused? ==> t.pausedAt.Some?)
    && (t.stoppedAt.Some? ==> t.startedAt + t.pausedSecs * 1000 <= t.stoppedAt.value <= now)
    && (t.pausedAt.Some? ==> t.startedAt + t.pausedSecs * 1000 <= t.pausedAt.value <= now)
    && (t.stoppedAt.None? && t.pausedAt.None? ==> t.startedAt + t.pausedSecs * 1000 <= now)
  }

  predicate NothingSubmitted(b: Booking) {
    b.submittedAt.None? && b.approvedAt.None? && b.taskCompletedAt.None?
  }

  predicate FrontDoorOk(b: Booking, now: int) {
    && (b.frontDoorVerifiedAt.Some? ==> b.frontDoorVerifiedAt.value <= now)
    && (b.frontDoor.Some? <==> b.frontDoorVerifiedAt.Some?)
    && (b.startCode.Some? ==> b.frontDoorVerifiedAt.Some?)
  }

  /** Nothing of the work exists before it starts. */
  predicate BeforeWork(b: Booking) {
    && b.timer.None? && b.startVerifiedAt.None? && b.completion.None? && b.completionProofAt.None?
    && b.completionCode.None? && NothingSubmitted(b)
  }

  /** The first half of the chain: proof at the door, then the start, then the timer. */
  predicate Started(b: Booking) {
    && b.timer.Some?
    && (b.verified ==>
          InOrder(b.frontDoorVerifiedAt, b.startVerifiedAt) && b.timer.value.startedAt == b.startVerifiedAt.value)
  }

  /** The completion proof is what stops the timer of a verified booking. */
  predicate ProofStopsTimer(b: Booking) {
    && (b.completion.Some? <==> b.completionProofAt.Some?)
    && (b.verified && b.timer.Some? ==>
          && (b.completionProofAt.Some? <==> b.timer.value.status.Stopped?)
          && b.completionProofAt == b.timer.value.stoppedAt)
    && (!b.verified ==> b.completionProofAt.None?)
    && (b.completionCode.Some? ==> b.completionProofAt.Some?)
  }

  predicate BookingOk(b: Booking, now: int) {
    && FrontDoorOk(b, now)
    && (b.timer.Some? ==> TimerOk(b.timer.value, now))
    && ProofStopsTimer(b)
    && (Early(b.status) || b.status == Cancelled ==> BeforeWork(b))
    && (b.status in {InProgress, AwaitingApproval, Completed} ==> Started(b))
    && (b.status == InProgress ==> NothingSubmitted(b))
    && (b.status == AwaitingApproval ==>
          !b.verified && TimerIs(b, {Stopped}) && Past(b.submittedAt, now) && InOrder(b.submittedAt, b.approvalDueAt))
    && (b.status == Completed ==> CompletedOk(b) && b.taskCompletedAt.value <= now)
  }

  predicate CompletedOk(b: Booking) {
    && TimerIs(b, {Stopped}) && b.taskCompletedAt.Some?
    && InOrder(b.submittedAt, b.approvedAt) && b.approvedAt == b.taskCompletedAt
    && (b.verified ==> InOrder(b.completionProofAt, b.completionVerifiedAt))
    && (b.verified ==> b.submittedAt == b.completionProofAt && b.completionVerifiedAt == b.approvedAt)
  }

  predicate BookingsOk(s: State) {
    forall id :: id in s.bookings ==> BookingOk(s.bookings[id], s.now)
  }

  lemma StillOk(b: Booking, now: int, later: int)
    requires BookingOk(b, now) && now <= later
    ensures BookingOk(b, later)
  {
  }

  lemma NewBookingOk(customer: int, tasker: int, verified: bool, minutes: nat, now: int)
    ensures BookingOk(NewBooking(customer, tasker, verified, minutes), now)
  {
  }

  /** Before work nothing but the proof at the door depends on the status or the tasker. */
  lemma EarlyOk(b: Booking, status: Status, tasker: int, now: int)
    requires BookingOk(b, now) && Early(b.status) && (Early(status) || status == Cancelled)
    ensures BookingOk(b.(status := status), now)
    ensures BookingOk(b.(tasker := tasker, status := status), now)
  {
    hide TimerOk;
  }

  lemma PaymentOk(b: Booking, payment: Payment, paid: bool, minutes: nat, now: int)
    requires BookingOk(b, now)
    ensures BookingOk(b.(payment := payment, paid := paid), now)
    ensures BookingOk(b.(extensionMinutes := minutes, payment := payment), now)
  {
  }

  lemma BookingStepOk(s: State, step: Step, id: int)
    requires BookingsOk(s) && AttemptBooking(s, step).Some? && id in AttemptBooking(s, step).value.bookings
    ensures BookingOk(AttemptBooking(s, step).value.bookings[id], AttemptBooking(s, step).value.now)
  {
    assert id in s.bookings ==> BookingOk(s.bookings[id], s.now);
    hide BookingOk, HasActiveDispute, NewBooking, WorkedMinutes;
    match step {
      case Wait(ms) => StillOk(s.bookings[id], s.now, s.now + ms);
      case Create(_, customer, tasker, verified, minutes) => NewBookingOk(customer, tasker, verified, minutes, s.now);
      case Travel(booking, status) => EarlyOk(s.bookings[booking], status, 0, s.now);
      case Cancel(booking) => EarlyOk(s.bookings[booking], Cancelled, 0, s.now);
      case Reassign(booking, tasker, _) => EarlyOk(s.bookings[booking], Pending, tasker, s.now);
      case SetPayment(booking, payment, paid) => PaymentOk(s.bookings[booking], payment, paid, 0, s.now);
      case ApproveDurationReview(_, booking) =>
        PaymentOk(s.bookings[booking], Ready, false, DurationApproved(s.bookings[booking]).extensionMinutes, s.now);
      case _ =>
    }
  }

  lemma StoppedOk(t: Timer, now: int)
    requires TimerOk(t, now) && t.status in {Running, Paused}
    ensures TimerOk(StoppedTimer(t, now), now)
  {
  }

  lemma ResumedOk(t: Timer, now: int)
    requires TimerOk(t, now) && t.status.Paused? && t.pausedAt.Some?
    ensures TimerOk(t.(status := Running, pausedAt := None, pausedSecs := t.pausedSecs + PauseSecs(t, now)), now)
  {
  }

  /** A timer may be exchanged for another correct one; a verified booking's one only if it does not stop by that. */
  lemma TimerChangeOk(b: Booking, t: Timer, now: int)
    requires BookingOk(b, now) && TimerOk(t, now) && b.timer.Some?
    requires t.startedAt == b.timer.value.startedAt && !b.timer.value.status.Stopped?
    requires b.verified ==> !t.status.Stopped?
    ensures BookingOk(b.(timer := Some(t)), now)
  {
  }

  lemma TimerStartOk(b: Booking, now: int)
    requires BookingOk(b, now) && b.status == Arrived && !b.verified
    ensures BookingOk(b.(status := InProgress, timer := Some(Timer(Running, now, None, None, 0))), now)
  {
  }

  lemma SubmittedOk(b: Booking, now: int, due: int)
    requires BookingOk(b, now) && b.status == InProgress && !b.verified && TimerIs(b, {Stopped}) && now <= due
    ensures BookingOk(b.(status := AwaitingApproval, submittedAt := Some(now), approvalDueAt := Some(due)), now)
  {
  }

  lemma TimerStepOk(s: State, step: Step, c: Config, id: int)
    requires BookingsOk(s) && AttemptTimer(s, step, c).Some? && id in AttemptTimer(s, step, c).value.bookings
    ensures BookingOk(AttemptTimer(s, step, c).value.bookings[id], AttemptTimer(s, step, c).value.now)
  {
    var b := s.bookings[step.booking];
    assert BookingOk(s.bookings[id], s.now) && BookingOk(b, s.now);
    assert b.timer.Some? ==> TimerOk(b.timer.value, s.now);
    if step.StartTimer? {
      TimerStartOk(b, s.now);
    } else if step.SubmitCompletion? {
      SubmittedOk(b, s.now, s.now + c.approvalMs);
    } else {
      TimerChangeStepOk(s, step, c);
    }
    hide BookingOk, TimerOk, StoppedTimer;
  }

  lemma TimerChangeStepOk(s: State, step: Step, c: Config)
    requires BookingsOk(s) && AttemptTimer(s, step, c).Some? && !step.StartTimer? && !step.SubmitCompletion?
    ensures BookingOk(AttemptTimer(s, step, c).value.bookings[step.booking], s.now)
  {
    var b := s.bookings[step.booking];
    var t := b.timer.value;
    assert BookingOk(b, s.now);
    assert TimerOk(t, s.now);
    match step {
      case PauseTimer(_, _) => TimerChangeOk(b, t.(status := Paused, pausedAt := Some(s.now)), s.now);
      case ResumeTimer(_, _) =>
        ResumedOk(t, s.now);
        TimerChangeOk(b, t.(status := Running, pausedAt := None, pausedSecs := t.pausedSecs + PauseSecs(t, s.now)),
                      s.now);
      case StopTimer(_, _) =>
        StoppedOk(t, s.now);
        TimerChangeOk(b, StoppedTimer(t, s.now), s.now);
      case _ =>
    }
    hide BookingOk;
  }

  lemma ProofStepOk(b: Booking, tasker: int, publicId: string, now: int)
    requires BookingOk(b, now)
    ensures FrontDoorAttached(b, tasker, publicId, now).Some? ==>
              BookingOk(FrontDoorAttached(b, tasker, publicId, now).value, now)
    ensures CompletionAttached(b, tasker, publicId, now).Some? ==>
              BookingOk(CompletionAttached(b, tasker, publicId, now).value, now)
  {
    if b.timer.Some? && TimerIs(b, {Running, Paused}) {
      StoppedOk(b.timer.value, now);
    }
  }

  lemma CodeStepOk(b: Booking, customer: int, code: Code, now: int)
    requires BookingOk(b, now)
    ensures StartCodeIssued(b, customer, code).Some? ==> BookingOk(StartCodeIssued(b, customer, code).value, now)
    ensures CompletionCodeIssued(b, customer, code).Some? ==>
              BookingOk(CompletionCodeIssued(b, customer, code).value, now)
  {
  }

  lemma WorkStepOk(b: Booking, tasker: int, now: int, max: nat)
    requires BookingOk(b, now)
    ensures MayStart(b, tasker, now, max) ==> BookingOk(b.(startCode := Some(Missed(b.startCode.value))), now)
    ensures MayStart(b, tasker, now, max) && b.timer.None? ==> BookingOk(WorkStarted(b, now), now)
    ensures MayFinish(b, tasker, now, max) ==>
              BookingOk(b.(completionCode := Some(Missed(b.completionCode.value))), now)
    ensures MayFinish(b, tasker, now, max) ==> BookingOk(WorkFinished(b, now), now)
  {
  }

  lemma ApprovalOk(b: Booking, now: int)
    requires BookingOk(b, now) && TimerIs(b, {Stopped}) && b.status in {InProgress, AwaitingApproval}
    requires b.verified ==> b.completionProofAt.Some?
    ensures BookingOk(CompletedByCustomer(b, now), now)
  {
  }

  lemma AutoApprovalOk(b: Booking, sweptAt: int, now: int)
    requires BookingOk(b, now) && b.status == AwaitingApproval
    requires sweptAt <= now && b.approvalDueAt.Some? && b.approvalDueAt.value <= sweptAt
    ensures BookingOk(AutoApproved(b, sweptAt), now)
  {
  }

  /** Steps of the verification service; only these touch codes and complete bookings. */
  predicate IsVerifiedStep(step: Step) {
    || step.AttachFrontDoor? || step.IssueStartCode? || step.StartWork? || step.AttachCompletion?
    || step.IssueCompletionCode? || step.FinishWork? || step.CompleteByCustomer? || step.AutoApprove?
  }

  lemma VerifiedStepTouchesOne(s: State, step: Step, c: Config, id: int)
    requires AttemptVerified(s, step, c).Some? && id in AttemptVerified(s, step, c).value.bookings
    ensures var s' := AttemptVerified(s, step, c).value;
            && s'.now == s.now && id in s.bookings
            && IsVerifiedStep(step)
            && (id != step.booking ==> s'.bookings[id] == s.bookings[id])
  {
    hide HasActiveDispute, FrontDoorAttached, CompletionAttached, StartCodeIssued, CompletionCodeIssued, MayStart,
         MayFinish;
  }

  lemma VerifiedStepOk(s: State, step: Step, c: Config, id: int)
    requires BookingsOk(s) && AttemptVerified(s, step, c).Some? && id in AttemptVerified(s, step, c).value.bookings
    ensures BookingOk(AttemptVerified(s, step, c).value.bookings[id], AttemptVerified(s, step, c).value.now)
  {
    VerifiedStepTouchesOne(s, step, c, id);
    assert BookingOk(s.bookings[id], s.now);
    hide BookingOk;
    if id == step.booking {
      if step.CompleteByCustomer? || step.AutoApprove? {
        ApprovalStepOk(s, step, c);
      } else {
        ProofOrCodeStepOk(s, step, c);
      }
    }
  }

  lemma ApprovalStepOk(s: State, step: Step, c: Config)
    requires BookingsOk(s) && AttemptVerified(s, step, c).Some? && (step.CompleteByCustomer? || step.AutoApprove?)
    requires step.booking in AttemptVerified(s, step, c).value.bookings
    ensures BookingOk(AttemptVerified(s, step, c).value.bookings[step.booking], s.now)
  {
    var b := s.bookings[step.booking];
    assert BookingOk(b, s.now);
    if step.AutoApprove? {
      AutoApprovalOk(b, step.sweptAt, s.now);
    } else {
      ApprovalOk(b, s.now);
    }
    hide BookingOk, HasActiveDispute;
  }

  lemma ProofOrCodeStepOk(s: State, step: Step, c: Config)
    requires BookingsOk(s) && AttemptVerified(s, step, c).Some? && IsVerifiedStep(step)
    requires !step.CompleteByCustomer? && !step.AutoApprove?
    requires step.booking in s.bookings && step.booking in AttemptVerified(s, step, c).value.bookings
    ensures BookingOk(AttemptVerified(s, step, c).value.bookings[step.booking], s.now)
  {
    var b := s.bookings[step.booking];
    assert BookingOk(b, s.now);
    hide BookingOk, FrontDoorAttached, CompletionAttached, StartCodeIssued, CompletionCodeIssued;
    match step {
      case AttachFrontDoor(tasker, _, publicId) => ProofStepOk(b, tasker, publicId, s.now);
      case AttachCompletion(tasker, _, publicId) => ProofStepOk(b, tasker, publicId, s.now);
      case IssueStartCode(customer, _, digits) => CodeStepOk(b, customer, NewCode(s, digits, c), s.now);
      case IssueCompletionCode(customer, _, digits) => CodeStepOk(b, customer, NewCode(s, digits, c), s.now);
      case StartWork(tasker, _, _) => WorkStepOk(b, tasker, s.now, c.otpMaxAttempts);
      case FinishWork(tasker, _, _) => WorkStepOk(b, tasker, s.now, c.otpMaxAttempts);
      case _ =>
    }
  }

  lemma HeldOk(b: Booking, now: int)
    requires BookingOk(b, now)
    ensures BookingOk(Held(b), now)
    ensures Early(b.status) ==> BookingOk(Held(b.(status := Cancelled)), now)
  {
  }

  lemma DisputeStepOk(s: State, step: Step, c: Config, id: int)
    requires BookingsOk(s) && AttemptDispute(s, step, c).Some? && id in AttemptDispute(s, step, c).value.bookings
    ensures BookingOk(AttemptDispute(s, step, c).value.bookings[id], AttemptDispute(s, step, c).value.now)
  {
    assert BookingOk(s.bookings[id], s.now);
    HeldOk(s.bookings[id], s.now);
    hide BookingOk, HasActiveDispute, HasOtherActive, IsReplay, Held;
  }

  lemma StepKeepsBookings(s: State, step: Step, c: Config)
    requires BookingsOk(s)
    ensures BookingsOk(Do(s, step, c))
  {
    var s' := Do(s, step, c);
    hide AttemptBooking, AttemptTimer, AttemptVerified, AttemptDispute, BookingOk;
    if Attempt(s, step, c).Some? {
      forall id | id in s'.bookings ensures BookingOk(s'.bookings[id], s'.now) {
        if AttemptBooking(s, step) == Some(s') {
          BookingStepOk(s, step, id);
        } else if AttemptTimer(s, step, c) == Some(s') {
          TimerStepOk(s, step, c, id);
        } else if AttemptDispute(s, step, c) == Some(s') {
          DisputeStepOk(s, step, c, id);
        } else {
          VerifiedStepOk(s, step, c, id);
        }
      }
    }
  }

  // ---- What most steps leave alone ----

  predicate IsDisputeStep(step: Step) {
    step.FileComplaint? || step.Withdraw? || step.Appeal? || step.Investigate? || step.Close? || step.Reopen?
    || step.SubmitRefund? || step.RefundPending? || step.RefundSettled? || step.RefundFailed?
  }

  predicate Quiet(b: Booking, b': Booking) {
    && b'.startCode == b.startCode && b'.completionCode == b.completionCode && b'.customer == b.customer
    && (b'.status == Completed <==> b.status == Completed)
    && (Disputable(b.status) ==> b'.status == b.status && b'.tasker == b.tasker)
  }

  predicate QuietBookings(s: State, s': State) {
    && s'.completedTasks == s.completedTasks && s'.issued == s.issued && s'.failed == s.failed
    && (forall id :: id in s.bookings ==> id in s'.bookings && Quiet(s.bookings[id], s'.bookings[id]))
    && (forall id :: id in s'.bookings && id !in s.bookings ==>
          s'.bookings[id].startCode.None? && s'.bookings[id].completionCode.None? && s'.bookings[id].status == Pending)
  }

  lemma BookingStepIsQuiet(s: State, step: Step)
    requires AttemptBooking(s, step).Some?
    ensures QuietBookings(s, AttemptBooking(s, step).value) && AttemptBooking(s, step).value.disputes == s.disputes
  {
    hide HasActiveDispute;
  }

  lemma TimerStepIsQuiet(s: State, step: Step, c: Config)
    requires AttemptTimer(s, step, c).Some?
    ensures QuietBookings(s, AttemptTimer(s, step, c).value) && AttemptTimer(s, step, c).value.disputes == s.disputes
  {
    hide StoppedTimer, PauseSecs;
  }

  lemma DisputeStepIsQuiet(s: State, step: Step, c: Config)
    requires AttemptDispute(s, step, c).Some?
    ensures QuietBookings(s, AttemptDispute(s, step, c).value)
  {
    hide HasActiveDispute, HasOtherActive, IsReplay, CompletionAnchor;
  }

  lemma QuietStep(s: State, step: Step, c: Config)
    requires !IsVerifiedStep(step)
    ensures QuietBookings(s, Do(s, step, c))
    ensures !IsDisputeStep(step) ==> Do(s, step, c).disputes == s.disputes
  {
    hide AttemptBooking, AttemptTimer, AttemptDispute, AttemptVerified, QuietBookings;
    if Attempt(s, step, c).Some? {
      if AttemptBooking(s, step) == Attempt(s, step, c) {
        BookingStepIsQuiet(s, step);
      } else if AttemptTimer(s, step, c) == Attempt(s, step, c) {
        TimerStepIsQuiet(s, step, c);
      } else {
        DisputeStepIsQuiet(s, step, c);
      }
    } else {
      StandingStillIsQuiet(s);
    }
  }

  /** What a step of the verification service does, without the other groups. */
  lemma VerifiedStepDoes(s: State, step: Step, c: Config)
    requires IsVerifiedStep(step)
    ensures Do(s, step, c) == match AttemptVerified(s, step, c) case None => s case Some(s') => s'
  {
    hide AttemptVerified;
  }

  lemma StandingStillIsQuiet(s: State)
    ensures QuietBookings(s, s)
  {
  }

  lemma VerifiedStepKeepsDisputes(s: State, step: Step, c: Config)
    requires IsVerifiedStep(step)
    ensures Do(s, step, c).disputes == s.disputes
  {
    VerifiedStepDoes(s, step, c);
    hide Do, HasActiveDispute, MayStart, MayFinish, FrontDoorAttached, CompletionAttached, StartCodeIssued,
         CompletionCodeIssued, MayAutoApprove;
  }

  // ---- What must hold of disputes ----

  /** Where a booking with a dispute can be. */
  predicate Disputable(status: Status) {
    status in {AwaitingApproval, Completed, Cancelled}
  }

  predicate DisputeOk(s: State, d: Dispute) {
    && d.booking in s.bookings && Disputable(s.bookings[d.booking].status)
    && d.appealCount == |d.appeals|
    && d.appeals <= {s.bookings[d.booking].customer, s.bookings[d.booking].tasker}
  }

  predicate BothActive(s: State, a: int, b: int)
    requires a in s.disputes && b in s.disputes
  {
    s.disputes[a].booking == s.disputes[b].booking && ActiveDispute(s.disputes[a]) && ActiveDispute(s.disputes[b])
  }

  predicate DisputesOk(s: State) {
    forall d :: d in s.disputes ==> DisputeOk(s, s.disputes[d])
  }

  /** A booking never has two active disputes; not an invariant, see `OneActiveExactlyWhileRefundsFailAlone`. */
  predicate OneActive(s: State) {
    forall a, b :: a in s.disputes && b in s.disputes && BothActive(s, a, b) ==> a == b
  }

  lemma VerifiedStepOnDisputable(s: State, step: Step, c: Config, id: int)
    requires IsVerifiedStep(step) && id in s.bookings && Disputable(s.bookings[id].status)
    ensures var s' := Do(s, step, c);
            && id in s'.bookings && s'.bookings[id].customer == s.bookings[id].customer
            && s'.bookings[id].tasker == s.bookings[id].tasker
            && (s'.bookings[id].status == s.bookings[id].status
                || (s.bookings[id].status == AwaitingApproval && s'.bookings[id].status == Completed))
  {
    VerifiedStepDoes(s, step, c);
    hide Do, HasActiveDispute;
  }

  /** A booking past its work never leaves, and keeps its people. */
  lemma DisputableStays(s: State, step: Step, c: Config, id: int)
    requires id in s.bookings && Disputable(s.bookings[id].status)
    ensures var s' := Do(s, step, c);
            && id in s'.bookings && Disputable(s'.bookings[id].status)
            && s'.bookings[id].customer == s.bookings[id].customer && s'.bookings[id].tasker == s.bookings[id].tasker
            && (s.bookings[id].status != AwaitingApproval ==> s'.bookings[id].status == s.bookings[id].status)
  {
    hide Do;
    if IsVerifiedStep(step) {
      VerifiedStepOnDisputable(s, step, c, id);
    } else {
      QuietStep(s, step, c);
    }
  }

  /** A dispute can only be filed once the work is submitted, or at the door, which cancels the booking. */
  lemma FiledOnDisputable(s: State, step: Step, c: Config)
    requires BookingsOk(s) && step.FileComplaint?
    requires MayFile(s, step.user, step.asTasker, step.booking, step.noShow, step.key, c)
    ensures Disputable(Filed(s, step.user, step.booking, step.dispute, step.noShow,
                             step.key).bookings[step.booking].status)
  {
    assert BookingOk(s.bookings[step.booking], s.now);
  }

  lemma AppealsCounted(d: Dispute, user: int)
    requires d.appealCount == |d.appeals| && user !in d.appeals
    ensures d.appealCount + 1 == |d.appeals + {user}|
  {
  }

  lemma DisputesAfter(s: State, step: Step, c: Config, id: int)
    requires BookingsOk(s) && DisputesOk(s) && id in Do(s, step, c).disputes
    ensures DisputeOk(Do(s, step, c), Do(s, step, c).disputes[id])
  {
    var s' := Do(s, step, c);
    if id in s.disputes {
      assert DisputeOk(s, s.disputes[id]);
      DisputableStays(s, step, c, s.disputes[id].booking);
      if step.Appeal? && step.dispute == id && MayAppeal(s, step.user, step.asTasker, step.dispute, c) {
        AppealsCounted(s.disputes[id], step.user);
      }
      DisputeKeepsBooking(s, step, c, id);
    } else {
      NewDisputesAreFiled(s, step, c, id);
      FiledOnDisputable(s, step, c);
    }
  }

  lemma DisputeStepDoes(s: State, step: Step, c: Config)
    ensures IsDisputeStep(step) ==>
              Do(s, step, c) == match AttemptDispute(s, step, c) case None => s case Some(s') => s'
    ensures !IsDisputeStep(step) ==> Do(s, step, c).disputes == s.disputes
  {
    hide AttemptDispute, AttemptVerified, AttemptTimer, AttemptBooking;
    if IsVerifiedStep(step) {
      VerifiedStepKeepsDisputes(s, step, c);
    } else if !IsDisputeStep(step) {
      QuietStep(s, step, c);
    }
  }

  lemma DisputeKeepsBooking(s: State, step: Step, c: Config, id: int)
    requires id in s.disputes
    ensures var s' := Do(s, step, c);
            && id in s'.disputes && s'.disputes[id].booking == s.disputes[id].booking
            && if step.Appeal? && step.dispute == id && MayAppeal(s, step.user, step.asTasker, step.dispute, c)
               then s'.disputes[id].appeals == s.disputes[id].appeals + {step.user}
                    && s'.disputes[id].appealCount == s.disputes[id].appealCount + 1
               else s'.disputes[id].appeals == s.disputes[id].appeals
                    && s'.disputes[id].appealCount == s.disputes[id].appealCount
  {
    DisputeStepDoes(s, step, c);
    hide Do, HasActiveDispute, HasOtherActive, IsReplay;
  }

  lemma NewDisputesAreFiled(s: State, step: Step, c: Config, id: int)
    requires id !in s.disputes && id in Do(s, step, c).disputes
    ensures step.FileComplaint? && step.dispute == id
    ensures MayFile(s, step.user, step.asTasker, step.booking, step.noShow, step.key, c)
    ensures Do(s, step, c) == Filed(s, step.user, step.booking, step.dispute, step.noShow, step.key)
  {
    DisputeStepDoes(s, step, c);
    hide Do, HasActiveDispute, HasOtherActive, IsReplay;
  }

  lemma StepKeepsDisputes(s: State, step: Step, c: Config)
    requires BookingsOk(s) && DisputesOk(s)
    ensures DisputesOk(Do(s, step, c))
  {
    var s' := Do(s, step, c);
    forall d | d in s'.disputes ensures DisputeOk(s', s'.disputes[d]) {
      DisputesAfter(s, step, c, d);
    }
  }

  // ---- One active dispute ----

  /** A refund fails for a resolved dispute while another one about the same booking is active. */
  predicate MeetsAnother(s: State, step: Step) {
    && step.RefundFailed? && ReturnsToInvestigation(s, step.dispute)
    && HasOtherActive(s, s.disputes[step.dispute].booking, step.dispute)
  }

  /**
   * A dispute becomes active only while its booking has no other active one, or
   * because its refund failed; all others stay as they are.
   */
  lemma BecomesActiveAlone(s: State, step: Step, c: Config, id: int)
    requires id in Do(s, step, c).disputes && ActiveDispute(Do(s, step, c).disputes[id]) && !MeetsAnother(s, step)
    ensures var s' := Do(s, step, c);
            || (id in s.disputes && ActiveDispute(s.disputes[id]) && s'.disputes[id].booking == s.disputes[id].booking)
            || (&& !HasOtherActive(s, s'.disputes[id].booking, id)
                && forall other :: other in s'.disputes && other != id ==>
                     other in s.disputes && s'.disputes[other] == s.disputes[other])
  {
    DisputeStepDoes(s, step, c);
    hide Do, IsReplay, CompletionAnchor;
  }

  lemma StaysOneActive(s: State, step: Step, c: Config)
    requires OneActive(s) && !MeetsAnother(s, step)
    ensures OneActive(Do(s, step, c))
  {
    var s' := Do(s, step, c);
    hide Do, MeetsAnother;
    forall a, b | a in s'.disputes && b in s'.disputes && BothActive(s', a, b) ensures a == b {
      BecomesActiveAlone(s, step, c, a);
      BecomesActiveAlone(s, step, c, b);
      if a in s.disputes && b in s.disputes {
        assert BothActive(s, a, b) ==> a == b;
      }
    }
  }

  lemma MeetingMakesTwo(s: State, step: Step, c: Config)
    requires MeetsAnother(s, step)
    ensures !OneActive(Do(s, step, c))
  {
    DisputeStepDoes(s, step, c);
    hide Do;
    var booking := s.disputes[step.dispute].booking;
    var other :| other in s.disputes && other != step.dispute && s.disputes[other].booking == booking
                 && ActiveDispute(s.disputes[other]);
    assert BothActive(Do(s, step, c), other, step.dispute);
  }

  // ---- What must hold of codes ----

  function Count(xs: seq<nat>, x: nat): nat {
    if xs == [] then 0 else Count(xs[..|xs| - 1], x) + (if xs[|xs| - 1] == x then 1 else 0)
  }

  lemma {:induction false} CountSplit(xs: seq<nat>, y: nat, x: nat)
    ensures Count(xs + [y], x) == Count(xs, x) + if x == y then 1 else 0
  {
    assert (xs + [y])[..|xs|] == xs;
  }

  lemma {:induction false} NoneCounted(xs: seq<nat>, x: nat)
    requires forall i :: 0 <= i < |xs| ==> xs[i] != x
    ensures Count(xs, x) == 0
  {
    if xs != [] {
      NoneCounted(xs[..|xs| - 1], x);
    }
  }

  /** The start code or the completion code of a booking, if there is one. */
  function CodeAt(s: State, id: int, atStart: bool): Option<Code> {
    if id !in s.bookings then None else if atStart then s.bookings[id].startCode else s.bookings[id].completionCode
  }

  predicate CodeOk(s: State, id: int, atStart: bool, c: Config) {
    var code := CodeAt(s, id, atStart);
    code.Some? ==>
      code.value.serial < s.issued && code.value.attempts == Count(s.failed, code.value.serial) <= c.otpMaxAttempts
  }

  ghost predicate CodesOk(s: State, c: Config) {
    && (forall id: int, atStart: bool :: CodeOk(s, id, atStart, c))
    && (forall serial: nat :: Count(s.failed, serial) <= c.otpMaxAttempts)
    && (forall i :: 0 <= i < |s.failed| ==> s.failed[i] < s.issued)
  }

  predicate SameCode(s: State, a: int, aStart: bool, b: int, bStart: bool) {
    CodeAt(s, a, aStart).Some? && CodeAt(s, b, bStart).Some?
    && CodeAt(s, a, aStart).value.serial == CodeAt(s, b, bStart).value.serial
  }

  /** Every code ever issued is in one place at most. */
  ghost predicate CodesApart(s: State) {
    forall a: int, aStart: bool, b: int, bStart: bool ::
      SameCode(s, a, aStart, b, bStart) ==> a == b && aStart == bStart
  }

  /** What can become of a code in one step: nothing, a new one, a miss, or the end. */
  datatype Fate = Stays | Fresh | Misses | Goes

  predicate Happens(s: State, s': State, id: int, atStart: bool, fate: Fate) {
    var code, code' := CodeAt(s, id, atStart), CodeAt(s', id, atStart);
    match fate
    case Stays => code' == code
    case Goes => code'.None?
    case Fresh => code'.Some? && code'.value.serial == s.issued && code'.value.attempts == 0
                  && s'.issued == s.issued + 1 && s'.failed == s.failed
    case Misses => code.Some? && code' == Some(Missed(code.value)) && s'.failed == s.failed + [code.value.serial]
  }

  /** Which code a step is about, if any. */
  predicate IsAbout(step: Step, id: int, atStart: bool) {
    || ((step.IssueStartCode? || step.StartWork?) && step.booking == id && atStart)
    || ((step.IssueCompletionCode? || step.FinishWork?) && step.booking == id && !atStart)
  }

  lemma VerifiedCodeFate(s: State, step: Step, c: Config, id: int, atStart: bool) returns (fate: Fate)
    requires IsVerifiedStep(step)
    ensures Happens(s, Do(s, step, c), id, atStart, fate)
    ensures fate in {Fresh, Misses} ==> IsAbout(step, id, atStart)
    ensures fate.Misses? ==> CodeAt(s, id, atStart).value.attempts < c.otpMaxAttempts
  {
    VerifiedStepDoes(s, step, c);
    hide Do, HasActiveDispute;
    var s' := Do(s, step, c);
    var code, code' := CodeAt(s, id, atStart), CodeAt(s', id, atStart);
    fate := if code' == code then Stays else if code'.None? then Goes
            else if s'.issued > s.issued then Fresh else Misses;
  }

  lemma CodeFate(s: State, step: Step, c: Config, id: int, atStart: bool) returns (fate: Fate)
    ensures Happens(s, Do(s, step, c), id, atStart, fate)
    ensures fate in {Fresh, Misses} ==> IsAbout(step, id, atStart)
    ensures fate.Misses? ==> CodeAt(s, id, atStart).value.attempts < c.otpMaxAttempts
  {
    hide Do;
    if IsVerifiedStep(step) {
      fate := VerifiedCodeFate(s, step, c, id, atStart);
    } else {
      QuietStep(s, step, c);
      fate := Stays;
    }
  }

  /** The failures grow by one, of the code the step is about, or not at all; numbers only grow. */
  lemma FailuresGrow(s: State, step: Step, c: Config)
    ensures var s' := Do(s, step, c);
            && s'.issued >= s.issued
            && (|| s'.failed == s.failed
                || (exists id: int, atStart: bool :: IsAbout(step, id, atStart) && Happens(s, s', id, atStart, Misses)
                                                     && CodeAt(s, id, atStart).value.attempts < c.otpMaxAttempts))
  {
    hide Do;
    if IsVerifiedStep(step) {
      VerifiedFailuresGrow(s, step, c);
    } else {
      QuietStep(s, step, c);
    }
  }

  lemma VerifiedFailuresGrow(s: State, step: Step, c: Config)
    requires IsVerifiedStep(step)
    ensures var s' := Do(s, step, c);
            && s'.issued >= s.issued
            && (s'.failed != s.failed ==>
                  && (step.StartWork? || step.FinishWork?)
                  && IsAbout(step, step.booking, step.StartWork?)
                  && Happens(s, s', step.booking, step.StartWork?, Misses)
                  && CodeAt(s, step.booking, step.StartWork?).value.attempts < c.otpMaxAttempts)
  {
    VerifiedStepDoes(s, step, c);
    hide Do, HasActiveDispute;
  }

  lemma FailuresStayOk(s: State, step: Step, c: Config)
    requires CodesOk(s, c)
    ensures var s' := Do(s, step, c);
            && (forall serial: nat :: Count(s'.failed, serial) <= c.otpMaxAttempts)
            && (forall i :: 0 <= i < |s'.failed| ==> s'.failed[i] < s'.issued)
  {
    var s' := Do(s, step, c);
    FailuresGrow(s, step, c);
    hide Do, Count;
    if s'.failed != s.failed {
      var id: int, atStart: bool :| IsAbout(step, id, atStart) && Happens(s, s', id, atStart, Misses)
                                    && CodeAt(s, id, atStart).value.attempts < c.otpMaxAttempts;
      assert CodeOk(s, id, atStart, c);
      forall serial: nat ensures Count(s'.failed, serial) <= c.otpMaxAttempts {
        CountSplit(s.failed, CodeAt(s, id, atStart).value.serial, serial);
      }
    }
  }

  lemma CodeStaysOk(s: State, step: Step, c: Config, id: int, atStart: bool)
    requires CodesOk(s, c) && CodesApart(s)
    ensures CodeOk(Do(s, step, c), id, atStart, c)
  {
    var s' := Do(s, step, c);
    var fate := CodeFate(s, step, c, id, atStart);
    FailuresGrow(s, step, c);
    hide Do, Count;
    assert CodeOk(s, id, atStart, c);
    match fate {
      case Goes =>
      case Fresh => NoneCounted(s.failed, s.issued);
      case Misses => CountSplit(s.failed, CodeAt(s, id, atStart).value.serial, CodeAt(s, id, atStart).value.serial);
      case Stays =>
        if s'.failed != s.failed && CodeAt(s, id, atStart).Some? {
          var other: int, otherStart: bool :| IsAbout(step, other, otherStart)
                                              && Happens(s, s', other, otherStart, Misses)
                                              && CodeAt(s, other, otherStart).value.attempts < c.otpMaxAttempts;
          assert !SameCode(s, id, atStart, other, otherStart);
          CountSplit(s.failed, CodeAt(s, other, otherStart).value.serial, CodeAt(s, id, atStart).value.serial);
        }
    }
  }

  /** The number of a code after a step: that of a new one, or the number the code there had before. */
  lemma SerialAfter(s: State, s': State, id: int, atStart: bool, fate: Fate)
    requires Happens(s, s', id, atStart, fate) && CodeAt(s', id, atStart).Some?
    ensures if fate.Fresh? then CodeAt(s', id, atStart).value.serial == s.issued
            else CodeAt(s, id, atStart).Some?
                 && CodeAt(s', id, atStart).value.serial == CodeAt(s, id, atStart).value.serial
  {
  }

  lemma CodesStayApart(s: State, step: Step, c: Config, a: int, aStart: bool, b: int, bStart: bool)
    requires CodesOk(s, c) && CodesApart(s) && SameCode(Do(s, step, c), a, aStart, b, bStart)
    ensures a == b && aStart == bStart
  {
    hide Do, Count;
    var s' := Do(s, step, c);
    var fateA := CodeFate(s, step, c, a, aStart);
    var fateB := CodeFate(s, step, c, b, bStart);
    SerialAfter(s, s', a, aStart, fateA);
    SerialAfter(s, s', b, bStart, fateB);
    assert CodeOk(s, a, aStart, c) && CodeOk(s, b, bStart, c);
    hide CodeAt, Happens;
    assert fateA != Fresh && fateB != Fresh ==> SameCode(s, a, aStart, b, bStart);
  }

  lemma StepKeepsCodes(s: State, step: Step, c: Config)
    requires CodesOk(s, c) && CodesApart(s)
    ensures CodesOk(Do(s, step, c), c) && CodesApart(Do(s, step, c))
  {
    var s' := Do(s, step, c);
    FailuresStayOk(s, step, c);
    forall id: int, atStart: bool ensures CodeOk(s', id, atStart, c) {
      CodeStaysOk(s, step, c, id, atStart);
    }
    hide Do, Count, CodeOk, SameCode;
    forall a: int, aStart: bool, b: int, bStart: bool | SameCode(s', a, aStart, b, bStart)
      ensures a == b && aStart == bStart
    {
      CodesStayApart(s, step, c, a, aStart, b, bStart);
    }
  }

  // ---- What must hold of the counters ----

  predicate IsDone(s: State, id: int, tasker: int) {
    id in s.bookings && s.bookings[id].status == Completed && s.bookings[id].tasker == tasker
  }

  /** The completed bookings of a tasker. */
  function Done(s: State, tasker: int): set<int> {
    set id | id in s.bookings && IsDone(s, id, tasker)
  }

  function Counter(s: State, tasker: int): nat {
    if tasker in s.completedTasks then s.completedTasks[tasker] else 0
  }

  ghost predicate CountersOk(s: State) {
    forall tasker: int :: Counter(s, tasker) == |Done(s, tasker)|
  }

  /** The booking a step completes. */
  predicate Completes(s: State, step: Step, c: Config, id: int) {
    && id in s.bookings && s.bookings[id].status in {InProgress, AwaitingApproval}
    && id in Do(s, step, c).bookings && Do(s, step, c).bookings[id].status == Completed
  }

  predicate SameDone(s: State, s': State) {
    && (forall id :: id in s.bookings && s.bookings[id].status == Completed ==> IsDone(s', id, s.bookings[id].tasker))
    && (forall id :: id in s'.bookings && s'.bookings[id].status == Completed ==> IsDone(s, id, s'.bookings[id].tasker))
  }

  lemma SameDoneSameSets(s: State, s': State)
    requires SameDone(s, s')
    ensures forall t: int :: Done(s', t) == Done(s, t)
  {
    forall t: int ensures Done(s', t) == Done(s, t) {
      assert forall id :: id in s.bookings && IsDone(s, id, t) ==> IsDone(s', id, t);
      assert forall id :: id in s'.bookings && IsDone(s', id, t) ==> IsDone(s, id, t);
    }
  }

  lemma VerifiedCompletion(s: State, step: Step, c: Config)
    requires IsVerifiedStep(step)
    ensures var s' := Do(s, step, c);
            || (s'.completedTasks == s.completedTasks && SameDone(s, s'))
            || (&& (step.FinishWork? || step.CompleteByCustomer? || step.AutoApprove?)
                && Completes(s, step, c, step.booking)
                && s'.bookings == s.bookings[step.booking := s'.bookings[step.booking]]
                && s'.bookings[step.booking].tasker == s.bookings[step.booking].tasker
                && s'.completedTasks == Increment(s.completedTasks, s.bookings[step.booking].tasker))
  {
    VerifiedStepDoes(s, step, c);
    hide Do, HasActiveDispute, Increment;
  }

  /** A counter moves by one exactly when one booking of that tasker becomes completed. */
  lemma CompletionCounts(s: State, step: Step, c: Config)
    ensures var s' := Do(s, step, c);
            || (s'.completedTasks == s.completedTasks && forall t: int :: Done(s', t) == Done(s, t))
            || (exists id ::
                  && Completes(s, step, c, id)
                  && s'.completedTasks == Increment(s.completedTasks, s.bookings[id].tasker)
                  && forall t: int :: Done(s', t) == Done(s, t) + if t == s.bookings[id].tasker then {id} else {})
  {
    hide Do, Increment;
    var s' := Do(s, step, c);
    if IsVerifiedStep(step) {
      VerifiedCompletion(s, step, c);
      if s'.completedTasks == s.completedTasks && SameDone(s, s') {
        SameDoneSameSets(s, s');
      } else {
        var id := step.booking;
        assert forall t: int :: Done(s', t) == Done(s, t) + if t == s.bookings[id].tasker then {id} else {};
      }
    } else {
      QuietStep(s, step, c);
      SameDoneSameSets(s, s');
    }
  }

  lemma StepKeepsCounters(s: State, step: Step, c: Config)
    requires CountersOk(s)
    ensures CountersOk(Do(s, step, c))
  {
    var s' := Do(s, step, c);
    CompletionCounts(s, step, c);
    hide Do;
    forall t: int ensures Counter(s', t) == |Done(s', t)| {
      assert Counter(s, t) == |Done(s, t)|;
    }
  }

  // ---- Every run ----

  ghost predicate Inv(s: State, c: Config) {
    BookingsOk(s) && DisputesOk(s) && CodesOk(s, c) && CodesApart(s) && CountersOk(s)
  }

  lemma StepKeepsInv(s: State, step: Step, c: Config)
    requires Inv(s, c)
    ensures Inv(Do(s, step, c), c)
  {
    hide Do, BookingsOk, DisputesOk, CodesOk, CodesApart, CountersOk;
    StepKeepsBookings(s, step, c);
    StepKeepsDisputes(s, step, c);
    StepKeepsCodes(s, step, c);
    StepKeepsCounters(s, step, c);
  }

  lemma NothingYet(c: Config)
    ensures Inv(INITIAL, c)
  {
    forall tasker: int ensures Counter(INITIAL, tasker) == |Done(INITIAL, tasker)| {
      assert Done(INITIAL, tasker) == {};
    }
  }

  lemma {:induction false} RunKeepsInv(steps: seq<Step>, c: Config)
    ensures Inv(Run(steps, c), c)
  {
    hide Do, Inv;
    if steps == [] {
      NothingYet(c);
    } else {
      RunKeepsInv(steps[..|steps| - 1], c);
      StepKeepsInv(Run(steps[..|steps| - 1], c), steps[|steps| - 1], c);
    }
  }

  // ---- Main results ----

  /** No booking ever becomes completed while a dispute about it is active, by whichever of the three ways. */
  lemma NoCompletionUnderDispute(steps: seq<Step>, c: Config, step: Step, id: int)
    requires id in Run(steps, c).bookings && Run(steps, c).bookings[id].status != Completed
    requires id in Do(Run(steps, c), step, c).bookings && Do(Run(steps, c), step, c).bookings[id].status == Completed
    ensures !HasActiveDispute(Run(steps, c), id)
    ensures step.FinishWork? ==> forall d :: d in Run(steps, c).disputes ==> Run(steps, c).disputes[d].booking != id
  {
    RunKeepsInv(steps, c);
    hide Run, Do, BookingsOk, CodesOk, CodesApart, CountersOk, HasActiveDispute;
    CompletesOnlyUndisputed(Run(steps, c), step, c, id);
  }

  /** What each of the three ways to completion has looked at. */
  lemma CompletionGuards(s: State, step: Step, c: Config, id: int)
    requires IsVerifiedStep(step) && id in s.bookings && s.bookings[id].status != Completed
    requires id in Do(s, step, c).bookings && Do(s, step, c).bookings[id].status == Completed
    ensures step.booking == id
    ensures if step.FinishWork? then s.bookings[id].status == InProgress else !HasActiveDispute(s, id)
  {
    VerifiedStepDoes(s, step, c);
    hide Do, HasActiveDispute;
  }

  lemma CompletesOnlyUndisputed(s: State, step: Step, c: Config, id: int)
    requires DisputesOk(s) && id in s.bookings && s.bookings[id].status != Completed
    requires id in Do(s, step, c).bookings && Do(s, step, c).bookings[id].status == Completed
    ensures !HasActiveDispute(s, id)
    ensures step.FinishWork? ==> forall d :: d in s.disputes ==> s.disputes[d].booking != id
  {
    assert forall d :: d in s.disputes ==> DisputeOk(s, s.disputes[d]);
    hide Do;
    if IsVerifiedStep(step) {
      CompletionGuards(s, step, c, id);
    } else {
      QuietStep(s, step, c);
    }
  }

  predicate EveryRefundFailsAlone(steps: seq<Step>, c: Config) {
    steps == [] || (EveryRefundFailsAlone(steps[..|steps| - 1], c)
                    && !MeetsAnother(Run(steps[..|steps| - 1], c), steps[|steps| - 1]))
  }

  /**
   * Filing, appealing and reopening ask for other active disputes about the
   * booking; the payment side, which puts a resolved dispute back under
   * investigation when its refund fails, does not. A booking therefore has at
   * most one active dispute all through a run exactly when no refund in it fails
   * for a resolved dispute while another one about the booking is active.
   */
  lemma {:induction false} OneActiveExactlyWhileRefundsFailAlone(steps: seq<Step>, c: Config)
    ensures (forall n :: 0 <= n <= |steps| ==> OneActive(Run(steps[..n], c))) <==> EveryRefundFailsAlone(steps, c)
  {
    hide Do, OneActive, MeetsAnother;
    if steps == [] {
      assert OneActive(INITIAL) by {
        NothingIsActive();
      }
    } else {
      var before, last := steps[..|steps| - 1], steps[|steps| - 1];
      OneActiveExactlyWhileRefundsFailAlone(before, c);
      assert forall n :: 0 <= n <= |before| ==> before[..n] == steps[..n];
      assert steps[..|steps|] == steps && before[..|before|] == before;
      if MeetsAnother(Run(before, c), last) {
        MeetingMakesTwo(Run(before, c), last, c);
      } else if OneActive(Run(before, c)) {
        StaysOneActive(Run(before, c), last, c);
      }
    }
  }

  /**
   * The step itself: a refund failing for a resolved dispute keeps one active dispute
   * exactly when no other one is active.
   */
  lemma FailedRefundKeepsOneActiveIffAlone(s: State, dispute: int, c: Config)
    requires OneActive(s) && ReturnsToInvestigation(s, dispute)
    ensures OneActive(Do(s, RefundFailed(dispute), c)) <==> !HasOtherActive(s, s.disputes[dispute].booking, dispute)
  {
    hide Do, OneActive, HasOtherActive;
    if HasOtherActive(s, s.disputes[dispute].booking, dispute) {
      MeetingMakesTwo(s, RefundFailed(dispute), c);
    } else {
      StaysOneActive(s, RefundFailed(dispute), c);
    }
  }

  lemma NothingIsActive()
    ensures OneActive(INITIAL)
  {
  }

  lemma AppealsAreCounted(steps: seq<Step>, c: Config, d: int)
    requires d in Run(steps, c).disputes
    ensures Run(steps, c).disputes[d].appealCount == |Run(steps, c).disputes[d].appeals| <= 2
  {
    RunKeepsInv(steps, c);
    hide Run;
    var s := Run(steps, c);
    var dispute := s.disputes[d];
    assert DisputeOk(s, dispute);
    AtMostTwo(dispute.appeals, s.bookings[dispute.booking].customer, s.bookings[dispute.booking].tasker);
  }

  lemma AtMostTwo(xs: set<int>, a: int, b: int)
    requires xs <= {a, b}
    ensures |xs| <= 2
  {
    var rest := {a, b} - xs;
    assert {a, b} == xs + rest;
    assert {a, b} == {a} + {b};
    assert |{a} + {b}| <= 2;
  }

  /**
   * A completed booking that needed verification has the whole chain, in order:
   * proof at the door, start, completion proof, verified completion; and the
   * proof is what stopped its timer.
   */
  lemma VerifiedWorkChain(steps: seq<Step>, c: Config, id: int)
    requires id in Run(steps, c).bookings
    requires Run(steps, c).bookings[id].status == Completed && Run(steps, c).bookings[id].verified
    ensures var b := Run(steps, c).bookings[id];
            && b.frontDoor.Some? && b.completion.Some? && TimerIs(b, {Stopped})
            && InOrder(b.frontDoorVerifiedAt, b.startVerifiedAt)
            && InOrder(b.startVerifiedAt, b.completionProofAt)
            && InOrder(b.completionProofAt, b.completionVerifiedAt)
            && b.timer.value.stoppedAt == b.completionProofAt
  {
    RunKeepsInv(steps, c);
    assert BookingOk(Run(steps, c).bookings[id], Run(steps, c).now);
  }

  /**
   * Every completed booking was submitted before it was approved, and approved
   * when it was completed; for verified work the submission is the completion
   * proof and the approval its verification. The filing window of a dispute
   * counts from there, and is open for at least its length after completion.
   */
  lemma ApprovalFollowsSubmission(steps: seq<Step>, c: Config, id: int)
    requires id in Run(steps, c).bookings && Run(steps, c).bookings[id].status == Completed
    ensures var s := Run(steps, c); var b := s.bookings[id];
            && InOrder(b.submittedAt, b.approvedAt) && b.approvedAt == b.taskCompletedAt
            && Past(b.taskCompletedAt, s.now)
            && (b.verified ==> b.submittedAt == b.completionProofAt && b.approvedAt == b.completionVerifiedAt)
            && (MayFile(s, b.customer, false, id, false, None, c) <==>
                s.now <= b.taskCompletedAt.value + c.filingWindowMs && !HasActiveDispute(s, id))
  {
    RunKeepsInv(steps, c);
    hide Run, HasActiveDispute;
    assert BookingOk(Run(steps, c).bookings[id], Run(steps, c).now);
  }

  /**
   * A code to start is only ever out once there is a picture from the door, a code to
   * finish once there is one of the work.
   */
  lemma {:induction false} CodesFollowProofs(steps: seq<Step>, c: Config, id: int)
    requires id in Run(steps, c).bookings
    ensures var b := Run(steps, c).bookings[id];
            && (b.startCode.Some? ==> b.frontDoor.Some?)
            && (b.completionCode.Some? ==> b.completion.Some? && TimerIs(b, {Stopped}))
  {
    RunKeepsInv(steps, c);
    hide Run;
    assert BookingOk(Run(steps, c).bookings[id], Run(steps, c).now);
  }

  /** However often codes are issued and tried, each one issued was missed at most the permitted number of times. */
  lemma {:induction false} MissesPerCodeAreBounded(steps: seq<Step>, c: Config, serial: nat)
    ensures Count(Run(steps, c).failed, serial) <= c.otpMaxAttempts
  {
    RunKeepsInv(steps, c);
  }

  /** A tasker's counter is exactly the number of the tasker's completed bookings. */
  lemma {:induction false} CompletedTasksAreExact(steps: seq<Step>, c: Config, tasker: int)
    ensures Counter(Run(steps, c), tasker) == |Done(Run(steps, c), tasker)|
  {
    RunKeepsInv(steps, c);
  }

  /** Pauses never outweigh the time worked, so the reviewed minutes cover the work exactly as the timer has it. */
  lemma ReviewCoversTheWork(steps: seq<Step>, c: Config, customer: int, id: int)
    requires id in Run(steps, c).bookings && AttemptBooking(Run(steps, c), ApproveDurationReview(customer, id)).Some?
    ensures var before := Run(steps, c).bookings[id];
            var after := Do(Run(steps, c), ApproveDurationReview(customer, id), c).bookings[id];
            var t := before.timer.value;
            && t.stoppedAt.value - t.startedAt >= t.pausedSecs * 1000
            && after.estimatedMinutes + after.extensionMinutes >= WorkedMinutes(t)
            && after.extensionMinutes >= before.extensionMinutes && after.payment == Ready
            && (after.extensionMinutes > before.extensionMinutes ==>
                  after.estimatedMinutes + after.extensionMinutes == WorkedMinutes(t))
  {
    RunKeepsInv(steps, c);
    assert BookingOk(Run(steps, c).bookings[id], Run(steps, c).now);
  }

  function After(s: State, steps: seq<Step>, c: Config): State
    decreases |steps|
  {
    if steps == [] then s else After(Do(s, steps[0], c), steps[1..], c)
  }

  /** Completed and cancelled bookings stay so, with the same people, whatever follows. */
  lemma {:induction false} CompletedAndCancelledAreFinal(s: State, steps: seq<Step>, c: Config, id: int)
    requires Inv(s, c) && id in s.bookings && s.bookings[id].status in {Completed, Cancelled}
    ensures var s' := After(s, steps, c);
            && id in s'.bookings && s'.bookings[id].status == s.bookings[id].status
            && s'.bookings[id].tasker == s.bookings[id].tasker
    decreases |steps|
  {
    if steps != [] {
      hide Do;
      StepKeepsInv(s, steps[0], c);
      DisputableStays(s, steps[0], c, id);
      CompletedAndCancelledAreFinal(Do(s, steps[0], c), steps[1..], c, id);
    }
  }

  /** Filing again with the same key changes nothing, also after the first filing cancelled the booking. */
  lemma RetriedFilingChangesNothing(s: State, c: Config, file: Step, again: Step)
    requires file.FileComplaint? && file.key.Some?
    requires again.FileComplaint? && again.user == file.user && again.key == file.key
    requires Attempt(s, file, c).Some?
    ensures Do(Do(s, file, c), again, c) == Do(s, file, c)
  {
    var s' := Do(s, file, c);
    hide HasActiveDispute, HasOtherActive;
    assert file.dispute in s'.disputes && s'.disputes[file.dispute].filedBy == again.user
           && s'.disputes[file.dispute].key == again.key;
    assert IsReplay(s', again.user, again.key);
  }

  // ---- Whose proof a start rests on ----

  /** A reassignment of this booking that is carried out while a picture from the door is attached. */
  predicate HandsOverWithPicture(s: State, step: Step, id: int) {
    && step.Reassign? && step.booking == id && MayReassign(s, id, step.tasker, step.approved)
    && s.bookings[id].frontDoor.Some?
  }

  /** What a step does to the picture and the tasker of a booking. */
  predicate PictureAfter(s: State, step: Step, s': State, id: int) {
    && id in s'.bookings
    && (id !in s.bookings ==> s'.bookings[id].frontDoor.None?)
    && (id in s.bookings ==>
          && (s.bookings[id].frontDoor.Some? ==>
                && s'.bookings[id].frontDoor == s.bookings[id].frontDoor
                && s'.bookings[id].tasker ==
                   if HandsOverWithPicture(s, step, id) then step.tasker else s.bookings[id].tasker)
          && (s.bookings[id].frontDoor.None? && s'.bookings[id].frontDoor.Some? ==>
                s'.bookings[id].frontDoor.value.tasker == s'.bookings[id].tasker))
  }

  lemma VerifiedStepOnPicture(s: State, step: Step, c: Config, id: int)
    requires IsVerifiedStep(step) && (id in s.bookings || id in Do(s, step, c).bookings)
    ensures PictureAfter(s, step, Do(s, step, c), id)
  {
    VerifiedStepDoes(s, step, c);
    hide Do, HasActiveDispute, MayReassign, MayStart, MayFinish, TimerIs, StoppedTimer;
  }

  lemma BookingStepOnPicture(s: State, step: Step, id: int)
    requires AttemptBooking(s, step).Some? && (id in s.bookings || id in AttemptBooking(s, step).value.bookings)
    ensures PictureAfter(s, step, AttemptBooking(s, step).value, id)
  {
    hide HasActiveDispute, WorkedMinutes;
  }

  lemma TimerStepOnPicture(s: State, step: Step, c: Config, id: int)
    requires AttemptTimer(s, step, c).Some? && (id in s.bookings || id in AttemptTimer(s, step, c).value.bookings)
    ensures PictureAfter(s, step, AttemptTimer(s, step, c).value, id)
  {
    hide StoppedTimer, PauseSecs, MayReassign;
  }

  lemma DisputeStepOnPicture(s: State, step: Step, c: Config, id: int)
    requires AttemptDispute(s, step, c).Some? && (id in s.bookings || id in AttemptDispute(s, step, c).value.bookings)
    ensures PictureAfter(s, step, AttemptDispute(s, step, c).value, id)
  {
    hide HasActiveDispute, HasOtherActive, IsReplay, CompletionAnchor, MayReassign;
  }

  /** A reassignment is refused exactly by its own conditions. */
  lemma HandsOverOnlyWhenAttempted(s: State, step: Step, c: Config, id: int)
    requires HandsOverWithPicture(s, step, id)
    ensures Attempt(s, step, c).Some?
  {
    hide AttemptVerified, AttemptTimer, AttemptDispute, HasActiveDispute;
  }

  lemma OtherStepOnPicture(s: State, step: Step, c: Config, id: int)
    requires !IsVerifiedStep(step) && (id in s.bookings || id in Do(s, step, c).bookings)
    ensures PictureAfter(s, step, Do(s, step, c), id)
  {
    if HandsOverWithPicture(s, step, id) {
      HandsOverOnlyWhenAttempted(s, step, c, id);
    }
    hide AttemptBooking, AttemptTimer, AttemptDispute, AttemptVerified, HandsOverWithPicture;
    if Attempt(s, step, c).Some? {
      hide PictureAfter;
      if AttemptBooking(s, step) == Attempt(s, step, c) {
        BookingStepOnPicture(s, step, id);
      } else if AttemptTimer(s, step, c) == Attempt(s, step, c) {
        TimerStepOnPicture(s, step, c, id);
      } else {
        DisputeStepOnPicture(s, step, c, id);
      }
    }
  }

  lemma StepOnPicture(s: State, step: Step, c: Config, id: int)
    requires (id in s.bookings || id in Do(s, step, c).bookings)
    ensures PictureAfter(s, step, Do(s, step, c), id)
  {
    hide Do, PictureAfter;
    if IsVerifiedStep(step) {
      VerifiedStepOnPicture(s, step, c, id);
    } else {
      OtherStepOnPicture(s, step, c, id);
    }
  }

  lemma HandedOverWithPicture(s: State, step: Step, id: int)
    requires HandsOverWithPicture(s, step, id)
    ensures id in s.bookings && s.bookings[id].frontDoor.Some?
  {
  }

  /** The taskers a booking was handed to since its picture was attached, in order. */
  function Handovers(steps: seq<Step>, c: Config, id: int): seq<int> {
    if steps == [] then []
    else
      var before, last := steps[..|steps| - 1], steps[|steps| - 1];
      Handovers(before, c, id) + if HandsOverWithPicture(Run(before, c), last, id) then [last.tasker] else []
  }

  /**
   * A booking's picture from the door is by its present tasker exactly when the
   * booking was never reassigned with the picture attached, or the last such
   * reassignment gave it back to the one who took the picture.
   */
  lemma {:induction false} PictureIsOwnIffNotHandedOn(steps: seq<Step>, c: Config, id: int)
    ensures var s := Run(steps, c); var to := Handovers(steps, c, id);
            if id in s.bookings && s.bookings[id].frontDoor.Some?
            then (&& (s.bookings[id].frontDoor.value.tasker == s.bookings[id].tasker
                      <==> to == [] || to[|to| - 1] == s.bookings[id].frontDoor.value.tasker)
                  && (to != [] ==> s.bookings[id].tasker == to[|to| - 1]))
            else to == []
  {
    hide Do, HandsOverWithPicture;
    if steps != [] {
      var before, last := steps[..|steps| - 1], steps[|steps| - 1];
      var s := Run(before, c);
      PictureIsOwnIffNotHandedOn(before, c, id);
      if id in s.bookings || id in Run(steps, c).bookings {
        StepOnPicture(s, last, c, id);
      }
      if HandsOverWithPicture(s, last, id) {
        HandedOverWithPicture(s, last, id);
      }
    }
  }

  /** Whoever starts work does so on a picture of their own exactly under the same condition. */
  lemma StartIsOnOwnProofIffNotHandedOn(steps: seq<Step>, c: Config, id: int, tasker: int)
    requires id in Run(steps, c).bookings
             && MayStart(Run(steps, c).bookings[id], tasker, Run(steps, c).now, c.otpMaxAttempts)
    ensures var picture := Run(steps, c).bookings[id].frontDoor; var to := Handovers(steps, c, id);
            && picture.Some?
            && (picture.value.tasker == tasker <==> to == [] || to[|to| - 1] == picture.value.tasker)
  {
    RunKeepsInv(steps, c);
    PictureIsOwnIffNotHandedOn(steps, c, id);
    hide Run, Handovers;
    assert BookingOk(Run(steps, c).bookings[id], Run(steps, c).now);
  }
}
