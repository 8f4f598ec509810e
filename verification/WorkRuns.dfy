/** Two concrete runs of the work on a booking, each against what one would expect. */
module WorkRuns {
  import opened Common
  import opened WorkFlow

  lemma RunOne(steps: seq<Step>, k: nat, c: Config)
    requires k < |steps|
    ensures Run(steps[..k + 1], c) == Do(Run(steps[..k], c), steps[k], c)
  {
    hide Do;
    assert steps[..k + 1][..k] == steps[..k];
  }

  lemma NothingRun(steps: seq<Step>, c: Config)
    ensures Run(steps[..0], c) == INITIAL
  {
  }

  function ArrivedBooking(verified: bool): Booking {
    NewBooking(10, 20, verified, 60).(status := Arrived)
  }

  lemma Travels(s: State, status: Status, c: Config)
    requires 1 in s.bookings && Early(s.bookings[1].status) && Early(status)
    ensures Do(s, Travel(1, status), c) == With(s, 1, s.bookings[1].(status := status))
  {
    hide AttemptVerified, AttemptDispute, AttemptTimer;
  }

  lemma RunThree(steps: seq<Step>, k: nat, c: Config)
    requires k + 3 <= |steps|
    ensures Run(steps[..k + 3], c) == Do(Do(Do(Run(steps[..k], c), steps[k], c), steps[k + 1], c), steps[k + 2], c)
  {
    hide Do;
    RunOne(steps, k, c);
    RunOne(steps, k + 1, c);
    RunOne(steps, k + 2, c);
  }

  lemma Arrives(s: State, c: Config)
    requires 1 in s.bookings && s.bookings[1].status == Pending
    ensures Do(Do(Do(s, Travel(1, Confirmed), c), Travel(1, EnRoute), c), Travel(1, Arrived), c)
         == With(s, 1, s.bookings[1].(status := Arrived))
  {
    hide Do;
    var b := s.bookings[1];
    Travels(s, Confirmed, c);
    var s1 := With(s, 1, b.(status := Confirmed));
    Travels(s1, EnRoute, c);
    var s2 := With(s1, 1, b.(status := EnRoute));
    Travels(s2, Arrived, c);
    assert With(s2, 1, b.(status := Arrived)).bookings == s.bookings[1 := b.(status := Arrived)];
  }

  lemma Created(verified: bool, c: Config)
    ensures Do(INITIAL, Create(1, 10, 20, verified, 60), c)
         == State(0, map[1 := NewBooking(10, 20, verified, 60)], map[], map[], 0, [])
  {
    hide AttemptVerified, AttemptDispute, AttemptTimer;
  }

  /** A booking is made and its tasker arrives. */
  lemma FirstArrival(steps: seq<Step>, verified: bool, c: Config)
    requires |steps| >= 4 && steps[0] == Create(1, 10, 20, verified, 60)
    requires steps[1] == Travel(1, Confirmed) && steps[2] == Travel(1, EnRoute) && steps[3] == Travel(1, Arrived)
    ensures Run(steps[..4], c) == State(0, map[1 := ArrivedBooking(verified)], map[], map[], 0, [])
  {
    hide Run, Do;
    NothingRun(steps, c);
    RunOne(steps, 0, c);
    Created(verified, c);
    RunThree(steps, 1, c);
    Arrives(Run(steps[..1], c), c);
  }

  // ---- A start on another tasker's picture ----

  const HANDED_ON: seq<Step> :=
    [Create(1, 10, 20, true, 60), Travel(1, Confirmed), Travel(1, EnRoute), Travel(1, Arrived),
     AttachFrontDoor(20, 1, "door"), IssueStartCode(10, 1, "1234"), Reassign(1, 21, true),
     Travel(1, Confirmed), Travel(1, EnRoute), Travel(1, Arrived), StartWork(21, 1, "1234")]

  /** The first tasker at the door, with picture and code. */
  function AtTheDoor(c: Config): State {
    State(0, map[1 := ArrivedBooking(true).(frontDoor := Some(Image(20, "door", 0)), frontDoorVerifiedAt := Some(0),
                                            startCode := Some(Code(0, "1234", c.otpTtlMs, 0)))], map[], map[], 1, [])
  }

  lemma PictureAndCode(s: State, c: Config)
    requires s == State(0, map[1 := ArrivedBooking(true)], map[], map[], 0, [])
    ensures Do(Do(s, AttachFrontDoor(20, 1, "door"), c), IssueStartCode(10, 1, "1234"), c) == AtTheDoor(c)
  {
    hide AttemptBooking, AttemptDispute, AttemptTimer;
    assert Do(s, AttachFrontDoor(20, 1, "door"), c)
        == s.(bookings := map[1 := AtTheDoor(c).bookings[1].(startCode := None)]);
  }

  lemma SecondTasker(c: Config)
    ensures Do(AtTheDoor(c), Reassign(1, 21, true), c)
         == With(AtTheDoor(c), 1, AtTheDoor(c).bookings[1].(tasker := 21, status := Pending))
  {
    hide AttemptVerified, AttemptDispute, AttemptTimer;
  }

  lemma SecondTaskerStarts(c: Config, s: State)
    requires c.otpTtlMs > 0 && c.otpMaxAttempts > 0
    requires s == With(AtTheDoor(c), 1, AtTheDoor(c).bookings[1].(tasker := 21))
    ensures Do(s, StartWork(21, 1, "1234"), c) == With(s, 1, WorkStarted(s.bookings[1], 0))
  {
    hide AttemptBooking, AttemptDispute, AttemptTimer;
  }

  /** The second tasker at the door, without a picture of his own. */
  function SecondAtTheDoor(c: Config): State {
    With(AtTheDoor(c), 1, AtTheDoor(c).bookings[1].(tasker := 21))
  }

  lemma SecondPictureIsRefused(c: Config)
    ensures forall publicId :: publicId != "door" ==>
              Attempt(SecondAtTheDoor(c), AttachFrontDoor(21, 1, publicId), c).None?
  {
    hide AttemptBooking, AttemptDispute, AttemptTimer;
  }

  lemma HandedOn(c: Config)
    ensures Run(HANDED_ON[..7], c) == With(AtTheDoor(c), 1, AtTheDoor(c).bookings[1].(tasker := 21, status := Pending))
  {
    hide Run, Do;
    FirstArrival(HANDED_ON, true, c);
    RunThree(HANDED_ON, 4, c);
    PictureAndCode(Run(HANDED_ON[..4], c), c);
    SecondTasker(c);
  }

  lemma SecondArrival(c: Config)
    ensures Run(HANDED_ON[..10], c) == SecondAtTheDoor(c)
  {
    hide Run, Do;
    HandedOn(c);
    RunThree(HANDED_ON, 7, c);
    Arrives(Run(HANDED_ON[..7], c), c);
  }

  /**
   * The first tasker takes the picture, the customer gets a code, the booking is
   * reassigned, and the second tasker arrives and starts work with both; before
   * that he cannot attach a picture of his own.
   */
  lemma SecondTaskerStartsOnTheFirstsPicture(c: Config)
    requires c.otpTtlMs > 0 && c.otpMaxAttempts > 0
    ensures var s := Run(HANDED_ON, c);
            && 1 in s.bookings && s.bookings[1].status == InProgress && s.bookings[1].startVerifiedAt == Some(0)
            && s.bookings[1].tasker == 21 && s.bookings[1].frontDoor == Some(Image(20, "door", 0))
    ensures forall publicId :: publicId != "door" ==>
              Attempt(Run(HANDED_ON[..10], c), AttachFrontDoor(21, 1, publicId), c).None?
  {
    hide Run, Do;
    SecondArrival(c);
    SecondPictureIsRefused(c);
    hide Attempt;
    RunOne(HANDED_ON, 10, c);
    assert HANDED_ON[..11] == HANDED_ON;
    SecondTaskerStarts(c, SecondAtTheDoor(c));
  }

  // ---- Two active disputes ----

  const REFUND_FAILS: seq<Step> :=
    [Create(1, 10, 20, false, 60), Travel(1, Confirmed), Travel(1, EnRoute), Travel(1, Arrived),
     StartTimer(20, 1), StopTimer(20, 1), SubmitCompletion(20, 1), CompleteByCustomer(10, 1),
     SetPayment(1, Paid, true), FileComplaint(10, false, 1, 100, false, None), SubmitRefund(100), RefundSettled(100),
     FileComplaint(10, false, 1, 101, false, None), RefundFailed(100)]

  /** The work is done and submitted; the customer has not answered yet. */
  function SubmittedWork(c: Config): Booking {
    ArrivedBooking(false).(status := AwaitingApproval, timer := Some(Timer(Stopped, 0, None, Some(0), 0)),
                           submittedAt := Some(0), approvalDueAt := Some(c.approvalMs))
  }

  /** The customer has approved it and paid. */
  function PaidWork(c: Config): State {
    State(0, map[1 := SubmittedWork(c).(status := Completed, approvedAt := Some(0), taskCompletedAt := Some(0),
                                        payment := Paid, paid := true)], map[], map[20 := 1], 0, [])
  }

  lemma WorkIsDone(s: State, c: Config)
    requires s == State(0, map[1 := ArrivedBooking(false)], map[], map[], 0, [])
    ensures Do(Do(Do(s, StartTimer(20, 1), c), StopTimer(20, 1), c), SubmitCompletion(20, 1), c)
         == s.(bookings := map[1 := SubmittedWork(c)])
  {
    hide AttemptBooking, AttemptDispute, AttemptVerified;
    var b := ArrivedBooking(false).(status := InProgress, timer := Some(Timer(Running, 0, None, None, 0)));
    var s1 := s.(bookings := map[1 := b]);
    var s2 := s.(bookings := map[1 := b.(timer := Some(Timer(Stopped, 0, None, Some(0), 0)))]);
    assert Do(s, StartTimer(20, 1), c) == s1;
    assert Do(s1, StopTimer(20, 1), c) == s2;
  }

  lemma WorkIsPaid(s: State, c: Config)
    requires s == State(0, map[1 := SubmittedWork(c)], map[], map[], 0, [])
    ensures Do(Do(s, CompleteByCustomer(10, 1), c), SetPayment(1, Paid, true), c) == PaidWork(c)
  {
    hide AttemptDispute, AttemptTimer;
    var s1 := PaidWork(c).(bookings := map[1 := PaidWork(c).bookings[1].(payment := Ready, paid := false)]);
    assert !HasActiveDispute(s, 1);
    assert Do(s, CompleteByCustomer(10, 1), c) == s1;
  }

  function FirstDispute(status: DisputeStatus, refund: Refund): Dispute {
    Dispute(1, 10, None, status, 0, 0, {}, refund)
  }

  lemma PaidWorkIsDisputed(c: Config, s: State, dispute: int)
    requires s == PaidWork(c).(disputes := s.disputes) && dispute !in s.disputes && !HasActiveDispute(s, 1)
    ensures Do(s, FileComplaint(10, false, 1, dispute, false, None), c)
         == s.(disputes := s.disputes[dispute := FirstDispute(Open, NoRefund)])
  {
    hide AttemptBooking, AttemptVerified, AttemptTimer;
  }

  lemma RefundSettles(c: Config, s: State)
    requires s == PaidWork(c).(disputes := map[100 := FirstDispute(Open, NoRefund)])
    ensures Do(Do(s, SubmitRefund(100), c), RefundSettled(100), c)
            == s.(disputes := map[100 := FirstDispute(Resolved, Applied)])
  {
    hide AttemptBooking, AttemptVerified, AttemptTimer;
    assert Do(s, SubmitRefund(100), c) == s.(disputes := map[100 := FirstDispute(UnderInvestigation, Underway)]);
  }

  lemma RefundFails(c: Config, s: State)
    requires 100 in s.disputes && s.disputes[100] == FirstDispute(Resolved, Applied)
    ensures Do(s, RefundFailed(100), c) == s.(disputes := s.disputes[100 := FirstDispute(UnderInvestigation, Undone)])
  {
    hide AttemptBooking, AttemptVerified, AttemptTimer;
  }

  lemma PaidAndDisputed(c: Config)
    ensures Run(REFUND_FAILS[..12], c) == PaidWork(c).(disputes := map[100 := FirstDispute(Resolved, Applied)])
  {
    hide Run, Do;
    FirstArrival(REFUND_FAILS, false, c);
    RunOne(REFUND_FAILS, 4, c);
    RunOne(REFUND_FAILS, 5, c);
    RunOne(REFUND_FAILS, 6, c);
    RunOne(REFUND_FAILS, 7, c);
    RunOne(REFUND_FAILS, 8, c);
    RunOne(REFUND_FAILS, 9, c);
    RunOne(REFUND_FAILS, 10, c);
    RunOne(REFUND_FAILS, 11, c);
    WorkIsDone(Run(REFUND_FAILS[..4], c), c);
    WorkIsPaid(Run(REFUND_FAILS[..7], c), c);
    PaidWorkIsDisputed(c, PaidWork(c), 100);
    RefundSettles(c, Run(REFUND_FAILS[..10], c));
  }

  /**
   * A paid booking is disputed and refunded, disputed again, and then the provider
   * reports that the refund failed after all: two disputes about it are active.
   */
  lemma FailedRefundMakesTwoActive(c: Config)
    ensures var s := Run(REFUND_FAILS, c); 100 in s.disputes && 101 in s.disputes && BothActive(s, 100, 101)
    ensures !EveryRefundFailsAlone(REFUND_FAILS, c)
  {
    hide Run, Do, EveryRefundFailsAlone;
    PaidAndDisputed(c);
    RunOne(REFUND_FAILS, 12, c);
    RunOne(REFUND_FAILS, 13, c);
    assert REFUND_FAILS[..14] == REFUND_FAILS;
    OneActiveExactlyWhileRefundsFailAlone(REFUND_FAILS, c);
    var s := Run(REFUND_FAILS[..12], c);
    PaidWorkIsDisputed(c, s, 101);
    RefundFails(c, Run(REFUND_FAILS[..13], c));
  }
}
