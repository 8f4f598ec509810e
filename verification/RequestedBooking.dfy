/**
 * Custom-time requests and bookings together: a booking that spends a request
 * checks it, is made, and marks it, all in one transaction. The two models share
 * their clock here, and a run of both is shown to be a run of each.
 */
module RequestedBooking {
  import opened Common
  import opened TimeUtil

  import C = CustomTime
  import S = Scheduling

  datatype State = State(schedule: S.State, requests: map<int, C.Request>)

  const INITIAL: State := State(S.INITIAL, map[])

  datatype Step =
    | Schedule(act: S.Step)
    | Request(ask: C.Step)
    | BookOnRequest(request: int, service: string, booking: int, slot: int, wanted: S.BookRequest)

  /** The requests with the common clock. */
  function Asking(s: State): C.State {
    C.State(s.schedule.now, s.requests)
  }

  /** A booking that spends no request. */
  predicate IsPlain(step: S.Step) {
    !(step.Book? && step.request.viaRequest)
  }

  function ClaimOf(step: Step): C.Claim
    requires step.BookOnRequest?
  {
    C.Claim(step.request, step.wanted.customer, step.wanted.tasker, step.service, step.wanted.date, step.wanted.time)
  }

  /** The new schedule of a booking on a request, or nothing when it is refused. */
  function Made(s: State, step: Step, minimum: nat): Option<S.State>
    requires step.BookOnRequest?
  {
    if C.AssertUsable(s.requests, s.schedule.now, ClaimOf(step)).Some? then None
    else S.Booked(s.schedule, step.booking, step.slot, step.wanted.(viaRequest := true), minimum)
  }

  /** A step that is refused has no effect. Nothing here looks for other requests with the same booking. */
  function Do(s: State, step: Step, ttlMs: nat, minimum: nat): State {
    match step
    case Schedule(x) => if IsPlain(x) then s.(schedule := S.Do(s.schedule, x, minimum)) else s
    case Request(x) => if x.Wait? || x.Spend? then s else s.(requests := C.Do(Asking(s), x, ttlMs).requests)
    case BookOnRequest(request, _, booking, _, _) =>
      match Made(s, step, minimum)
      case None => s
      case Some(schedule) =>
        State(schedule, s.requests[request := s.requests[request].(status := C.Fulfilled, booking := Some(booking))])
  }

  function Run(steps: seq<Step>, ttlMs: nat, minimum: nat): State {
    if steps == [] then INITIAL else Do(Run(steps[..|steps| - 1], ttlMs, minimum), steps[|steps| - 1], ttlMs, minimum)
  }

  // ---- What bookings keep ----

  /** The booking's people, and its place as long as it is at a custom time. */
  predicate SameBooking(b: S.Booking, b': S.Booking) {
    && b'.customer == b.customer
    && (b'.isCustomTime ==> b.isCustomTime && b'.slot == b.slot && b'.date == b.date && b'.range == b.range)
  }

  predicate KeepsBookings(s: S.State, s': S.State) {
    && (forall b :: b in s.bookings ==> b in s'.bookings && SameBooking(s.bookings[b], s'.bookings[b]))
    && (forall id :: id in s.slots ==> id in s'.slots && s'.slots[id].tasker == s.slots[id].tasker)
  }

  lemma BookedKeepsBookings(s: S.State, booking: int, slot: int, r: S.BookRequest, minimum: nat)
    requires S.Booked(s, booking, slot, r, minimum).Some?
    ensures KeepsBookings(s, S.Booked(s, booking, slot, r, minimum).value)
    ensures booking !in s.bookings
  {
    hide ParseTimeToMinutes, S.CustomRange, S.TaskerTimeFree, S.IsPastSlotStart, S.HasMatch;
  }

  lemma MovedKeepsBookings(s: S.State, booking: int, date: int, time: string, pick: int)
    requires booking in s.bookings && S.Moved(s, booking, date, time, pick).Some?
    ensures KeepsBookings(s, S.Moved(s, booking, date, time, pick).value)
  {
    hide S.Matches, S.IsPastSlotStart;
  }

  lemma ScheduleKeepsBookings(s: S.State, step: S.Step, minimum: nat)
    ensures KeepsBookings(s, S.Do(s, step, minimum))
  {
    if S.Attempt(s, step, minimum).Some? {
      if step.Book? {
        BookedKeepsBookings(s, step.booking, step.customSlot, step.request, minimum);
        hide S.Booked, KeepsBookings;
      } else if step.Reschedule? {
        MovedKeepsBookings(s, step.move.booking, step.move.date, step.move.time, step.move.pick);
        hide S.Moved, KeepsBookings, S.Booked;
      } else if step.Respond? && step.accept {
        var p := s.proposals[step.proposal];
        MovedKeepsBookings(s, p.booking, p.date, p.time, step.pick);
        hide S.Moved, S.Booked;
      } else {
        hide S.Booked, S.Moved, S.Usable;
      }
    }
  }

  // ---- What must hold ----

  /**
   * The booking that spent a request is its customer's; as long as it has not
   * been moved it has the request's date and minute, and a slot of its tasker.
   */
  predicate CarriedBy(s: State, r: C.Request, booking: int) {
    && booking in s.schedule.bookings && s.schedule.bookings[booking].customer == r.customer
    && (s.schedule.bookings[booking].isCustomTime ==>
          var b := s.schedule.bookings[booking];
          && b.date == r.date && ParseTimeToMinutes(b.range.startTime) == ParseTimeToMinutes(r.time)
          && b.slot in s.schedule.slots && s.schedule.slots[b.slot].tasker == r.tasker)
  }

  /** A booking as the request asked for it. */
  predicate IsRequested(b: S.Booking, r: C.Request) {
    && b.customer == r.customer && b.tasker == r.tasker && b.date == r.date
    && ParseTimeToMinutes(b.range.startTime) == ParseTimeToMinutes(r.time)
  }

  predicate RequestOk(s: State, id: int)
    requires id in s.requests
  {
    && (s.requests[id].booking.Some? <==> s.requests[id].status == C.Fulfilled)
    && (s.requests[id].booking.Some? ==> CarriedBy(s, s.requests[id], s.requests[id].booking.value))
  }

  predicate Inv(s: State) {
    forall id :: id in s.requests ==> RequestOk(s, id)
  }

  lemma StaysCarried(s: State, s': State, r: C.Request, booking: int)
    requires CarriedBy(s, r, booking) && KeepsBookings(s.schedule, s'.schedule)
    ensures CarriedBy(s', r, booking)
  {
    hide ParseTimeToMinutes;
    assert SameBooking(s.schedule.bookings[booking], s'.schedule.bookings[booking]);
  }

  /** A step on requests other than spending leaves the spent ones and makes none. */
  lemma RequestStepSpendsNone(s: C.State, step: C.Step, ttlMs: nat, id: int)
    requires !step.Spend? && id in C.Do(s, step, ttlMs).requests
    ensures var r' := C.Do(s, step, ttlMs).requests[id];
            if id in s.requests
            then && r'.booking == s.requests[id].booking
                 && (r'.status == C.Fulfilled <==> s.requests[id].status == C.Fulfilled)
                 && (r'.status == C.Fulfilled ==> r' == s.requests[id])
            else r'.booking.None? && r'.status == C.Pending
  {
    hide C.IsPastStart, ParseTimeToMinutes;
  }

  lemma MadeIsCarried(s: State, step: Step, ttlMs: nat, minimum: nat)
    requires step.BookOnRequest? && Made(s, step, minimum).Some?
    ensures step.request in s.requests && s.requests[step.request].status == C.Accepted
    ensures step.booking !in s.schedule.bookings && KeepsBookings(s.schedule, Do(s, step, ttlMs, minimum).schedule)
    ensures CarriedBy(Do(s, step, ttlMs, minimum), s.requests[step.request], step.booking)
    ensures var b := Do(s, step, ttlMs, minimum).schedule.bookings[step.booking];
            b.tasker == s.requests[step.request].tasker && b.isCustomTime && b.status == S.Pending
  {
    var wanted := step.wanted.(viaRequest := true);
    S.BookedAsRequested(s.schedule, step.booking, step.slot, wanted, minimum);
    BookedKeepsBookings(s.schedule, step.booking, step.slot, wanted, minimum);
    hide S.Booked, ParseTimeToMinutes, KeepsBookings;
  }

  lemma StepKeepsInv(s: State, step: Step, ttlMs: nat, minimum: nat)
    requires Inv(s)
    ensures Inv(Do(s, step, ttlMs, minimum))
  {
    var s' := Do(s, step, ttlMs, minimum);
    forall id | id in s'.requests ensures RequestOk(s', id) {
      if step.Request? {
        if step.ask.Wait? || step.ask.Spend? {
        } else {
          RequestStepSpendsNone(Asking(s), step.ask, ttlMs, id);
          hide C.Do;
          assert id in s.requests ==> RequestOk(s, id);
        }
      } else {
        assert RequestOk(s, id);
        KeepsInAnyCase(s, step, ttlMs, minimum);
        if step.BookOnRequest? && Made(s, step, minimum).Some? {
          MadeIsCarried(s, step, ttlMs, minimum);
        }
        if s.requests[id].booking.Some? {
          StaysCarried(s, s', s.requests[id], s.requests[id].booking.value);
        }
        hide CarriedBy, S.Do, S.Booked, Made;
      }
    }
  }

  lemma KeepsInAnyCase(s: State, step: Step, ttlMs: nat, minimum: nat)
    ensures KeepsBookings(s.schedule, Do(s, step, ttlMs, minimum).schedule)
  {
    if step.Schedule? {
      ScheduleKeepsBookings(s.schedule, step.act, minimum);
    } else if step.BookOnRequest? && Made(s, step, minimum).Some? {
      MadeIsCarried(s, step, ttlMs, minimum);
    }
    hide S.Do, S.Booked, C.Do;
  }

  lemma {:induction false} RunKeepsInv(steps: seq<Step>, ttlMs: nat, minimum: nat)
    ensures Inv(Run(steps, ttlMs, minimum))
  {
    if steps != [] {
      RunKeepsInv(steps[..|steps| - 1], ttlMs, minimum);
      hide Do, Inv;
      StepKeepsInv(Run(steps[..|steps| - 1], ttlMs, minimum), steps[|steps| - 1], ttlMs, minimum);
    }
  }

  // ---- Main results ----

  /**
   * In every run the booking a spent request names is its customer's own and,
   * until it is moved, at the requested date and minute on a slot of the requested
   * tasker.
   */
  lemma SpentRequestsHaveTheirBooking(steps: seq<Step>, ttlMs: nat, minimum: nat, id: int)
    requires id in Run(steps, ttlMs, minimum).requests
    requires Run(steps, ttlMs, minimum).requests[id].status == C.Fulfilled
    ensures var s := Run(steps, ttlMs, minimum);
            s.requests[id].booking.Some? && CarriedBy(s, s.requests[id], s.requests[id].booking.value)
  {
    RunKeepsInv(steps, ttlMs, minimum);
    hide CarriedBy;
    assert RequestOk(Run(steps, ttlMs, minimum), id);
  }

  lemma NotTakenBefore(s: State, booking: int)
    requires Inv(s) && booking !in s.schedule.bookings
    ensures !C.Taken(Asking(s), booking)
  {
    forall id | id in s.requests ensures s.requests[id].booking != Some(booking) {
      assert RequestOk(s, id);
    }
  }

  lemma MadeDoes(s: State, step: Step, ttlMs: nat, minimum: nat)
    requires step.BookOnRequest? && Made(s, step, minimum).Some?
    ensures step.request in s.requests
    ensures C.AssertUsable(s.requests, s.schedule.now, ClaimOf(step)).None?
    ensures Do(s, step, ttlMs, minimum)
         == State(S.Booked(s.schedule, step.booking, step.slot, step.wanted.(viaRequest := true), minimum).value,
                  s.requests[step.request :=
                    s.requests[step.request].(status := C.Fulfilled, booking := Some(step.booking))])
  {
    hide S.Booked, S.Do, C.Do, C.Fits;
  }

  lemma SpendingDoes(s: C.State, claim: C.Claim, booking: int, ttlMs: nat)
    requires C.AssertUsable(s.requests, s.now, claim).None? && !C.Taken(s, booking)
    ensures claim.request in s.requests
    ensures C.Do(s, C.Spend(claim, booking), ttlMs).requests
         == s.requests[claim.request := s.requests[claim.request].(status := C.Fulfilled, booking := Some(booking))]
  {
    hide C.Taken, C.Fits, C.IsPastStart;
  }

  /** In the end the transaction does to the requests exactly what spending does. */
  lemma MadeSpends(s: State, step: Step, ttlMs: nat, minimum: nat)
    requires Inv(s) && step.BookOnRequest? && Made(s, step, minimum).Some?
    ensures !C.Taken(Asking(s), step.booking)
    ensures Do(s, step, ttlMs, minimum).requests
            == C.Do(Asking(s), C.Spend(ClaimOf(step), step.booking), ttlMs).requests
    ensures Do(s, step, ttlMs, minimum).schedule
         == S.Do(s.schedule, S.Book(step.booking, step.slot, step.wanted.(viaRequest := true)), minimum)
  {
    MadeDoes(s, step, ttlMs, minimum);
    MadeIsCarried(s, step, ttlMs, minimum);
    hide Do, C.Do, S.Do, S.Booked, C.Taken, KeepsBookings, CarriedBy, IsRequested, C.AssertUsable, Inv;
    NotTakenBefore(s, step.booking);
    SpendingDoes(Asking(s), ClaimOf(step), step.booking, ttlMs);
    BookingDoes(s.schedule, step.booking, step.slot, step.wanted.(viaRequest := true), minimum);
  }

  /**
   * A booking on a request is made exactly when the request is usable and the
   * booking itself is possible; then it has the request's customer, tasker, date
   * and minute, and no other request was spent on it before.
   */
  lemma BookingOnRequestIsTheRequestedOne(steps: seq<Step>, ttlMs: nat, minimum: nat, step: Step)
    requires step.BookOnRequest?
    ensures var s := Run(steps, ttlMs, minimum); var s' := Do(s, step, ttlMs, minimum);
            if C.AssertUsable(s.requests, s.schedule.now, ClaimOf(step)).None?
               && S.Booked(s.schedule, step.booking, step.slot, step.wanted.(viaRequest := true), minimum).Some?
            then && step.booking in s'.schedule.bookings && step.booking !in s.schedule.bookings
                 && step.request in s.requests && !C.Taken(Asking(s), step.booking)
                 && IsRequested(s'.schedule.bookings[step.booking], s.requests[step.request])
                 && step.request in s'.requests && s'.requests[step.request].booking == Some(step.booking)
            else s' == s
  {
    var s := Run(steps, ttlMs, minimum);
    RunKeepsInv(steps, ttlMs, minimum);
    hide Run;
    if Made(s, step, minimum).Some? {
      MadeIsCarried(s, step, ttlMs, minimum);
      NotTakenBefore(s, step.booking);
      hide S.Booked, ParseTimeToMinutes, C.Taken, KeepsBookings, Inv;
    }
  }

  // ---- Common runs are runs of both ----

  lemma ClockOnlyWaits(s: S.State, step: S.Step, minimum: nat)
    ensures S.Do(s, step, minimum).now == if step.Wait? then s.now + step.ms else s.now
  {
    hide S.Usable, S.TaskerTimeFree, S.HasMatch, S.IsPastSlotStart, S.CustomRange, S.Matches;
  }

  /** What a step looks like to the requests. */
  function AskedBy(s: State, step: Step, minimum: nat): Option<C.Step> {
    match step
    case Schedule(x) => if x.Wait? then Some(C.Wait(x.ms)) else None
    case Request(x) => if x.Wait? || x.Spend? then None else Some(x)
    case BookOnRequest(_, _, booking, _, _) =>
      if Made(s, step, minimum).Some? then Some(C.Spend(ClaimOf(step), booking)) else None
  }

  /** What a step looks like to the schedule. */
  function ScheduledBy(s: State, step: Step, minimum: nat): Option<S.Step> {
    match step
    case Schedule(x) => if IsPlain(x) then Some(x) else None
    case Request(_) => None
    case BookOnRequest(_, _, booking, slot, wanted) =>
      if Made(s, step, minimum).Some? then Some(S.Book(booking, slot, wanted.(viaRequest := true))) else None
  }

  lemma StepIsAStepOfBoth(s: State, step: Step, ttlMs: nat, minimum: nat)
    requires Inv(s)
    ensures Asking(Do(s, step, ttlMs, minimum)) ==
            match AskedBy(s, step, minimum) case None => Asking(s) case Some(x) => C.Do(Asking(s), x, ttlMs)
    ensures Do(s, step, ttlMs, minimum).schedule ==
            match ScheduledBy(s, step, minimum) case None => s.schedule case Some(x) => S.Do(s.schedule, x, minimum)
  {
    match step {
      case Schedule(x) =>
        ClockOnlyWaits(s.schedule, x, minimum);
        hide S.Do;
      case Request(x) =>
        hide S.Do;
      case BookOnRequest(_, _, booking, slot, wanted) =>
        if Made(s, step, minimum).Some? {
          MadeSpends(s, step, ttlMs, minimum);
          ClockOnlyWaits(s.schedule, S.Book(booking, slot, wanted.(viaRequest := true)), minimum);
          SpendingTakesNoTime(Asking(s), C.Spend(ClaimOf(step), booking), ttlMs);
          hide S.Do, S.Booked, C.Do, Made;
        } else {
          hide S.Do, S.Booked, C.Do;
        }
    }
  }

  lemma SpendingTakesNoTime(s: C.State, step: C.Step, ttlMs: nat)
    requires step.Spend?
    ensures C.Do(s, step, ttlMs).now == s.now
  {
    hide C.AssertUsable, C.Taken;
  }

  function Asked(steps: seq<Step>, ttlMs: nat, minimum: nat): seq<C.Step> {
    if steps == [] then []
    else
      var before, last := steps[..|steps| - 1], steps[|steps| - 1];
      Asked(before, ttlMs, minimum) +
      match AskedBy(Run(before, ttlMs, minimum), last, minimum) case None => [] case Some(x) => [x]
  }

  function Scheduled(steps: seq<Step>, ttlMs: nat, minimum: nat): seq<S.Step> {
    if steps == [] then []
    else
      var before, last := steps[..|steps| - 1], steps[|steps| - 1];
      Scheduled(before, ttlMs, minimum) +
      match ScheduledBy(Run(before, ttlMs, minimum), last, minimum) case None => [] case Some(x) => [x]
  }

  /**
   * Every common run is a run of the requests and a run of the schedule, so all
   * that is proved of either holds here; in particular that a booking spends one
   * request at most, which there rests on bookings having fresh ids.
   */
  lemma {:induction false} CommonRunsAreRunsOfBoth(steps: seq<Step>, ttlMs: nat, minimum: nat)
    ensures Asking(Run(steps, ttlMs, minimum)) == C.Run(Asked(steps, ttlMs, minimum), ttlMs)
    ensures Run(steps, ttlMs, minimum).schedule == S.Run(Scheduled(steps, ttlMs, minimum), minimum)
  {
    if steps != [] {
      var before, last := steps[..|steps| - 1], steps[|steps| - 1];
      CommonRunsAreRunsOfBoth(before, ttlMs, minimum);
      RunKeepsInv(before, ttlMs, minimum);
      var s := Run(before, ttlMs, minimum);
      StepIsAStepOfBoth(s, last, ttlMs, minimum);
      hide Do, C.Do, S.Do, AskedBy, ScheduledBy, Inv;
      if AskedBy(s, last, minimum).Some? {
        RunRequests(Asked(before, ttlMs, minimum), AskedBy(s, last, minimum).value, ttlMs);
      }
      if ScheduledBy(s, last, minimum).Some? {
        RunSchedule(Scheduled(before, ttlMs, minimum), ScheduledBy(s, last, minimum).value, minimum);
      }
      hide C.Run, S.Run;
      assert Asked(before, ttlMs, minimum) + [] == Asked(before, ttlMs, minimum);
      assert Scheduled(before, ttlMs, minimum) + [] == Scheduled(before, ttlMs, minimum);
    }
  }

  lemma RunRequests(steps: seq<C.Step>, step: C.Step, ttlMs: nat)
    ensures C.Run(steps + [step], ttlMs) == C.Do(C.Run(steps, ttlMs), step, ttlMs)
  {
    hide C.Do;
    assert (steps + [step])[..|steps|] == steps;
  }

  lemma RunSchedule(steps: seq<S.Step>, step: S.Step, minimum: nat)
    ensures S.Run(steps + [step], minimum) == S.Do(S.Run(steps, minimum), step, minimum)
  {
    hide S.Do;
    assert (steps + [step])[..|steps|] == steps;
  }

  lemma BookingDoes(s: S.State, booking: int, slot: int, wanted: S.BookRequest, minimum: nat)
    requires S.Booked(s, booking, slot, wanted, minimum).Some?
    ensures S.Do(s, S.Book(booking, slot, wanted), minimum) == S.Booked(s, booking, slot, wanted, minimum).value
  {
    hide S.Booked;
  }

  /** Two spent requests never name the same booking. */
  lemma OneRequestPerBooking(steps: seq<Step>, ttlMs: nat, minimum: nat, a: int, b: int)
    requires a in Run(steps, ttlMs, minimum).requests && b in Run(steps, ttlMs, minimum).requests && a != b
    requires Run(steps, ttlMs, minimum).requests[a].booking.Some?
    ensures Run(steps, ttlMs, minimum).requests[a].booking != Run(steps, ttlMs, minimum).requests[b].booking
  {
    CommonRunsAreRunsOfBoth(steps, ttlMs, minimum);
    C.OnePendingPerPairAndOneRequestPerBooking(Asked(steps, ttlMs, minimum), ttlMs, a, b);
    hide Run, Asked, C.Run;
    assert !C.SameBooking(Asking(Run(steps, ttlMs, minimum)), a, b);
  }
}
