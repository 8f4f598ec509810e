/**
 * Who holds which slot, and when a tasker is busy: booking, cancelling, moving
 * and expiring. Each operation is one transaction; it either takes its full
 * effect or is refused and changes nothing.
 */
module Scheduling {
  import opened Common
  import opened TimeUtil

  // ---- Rows ----

  datatype Status = Pending | AwaitingPayment | Confirmed | EnRoute | Arrived | InProgress | AwaitingApproval
    | Completed | Cancelled

  /** The statuses in which a booking occupies its tasker's time. */
  predicate Active(status: Status) {
    status !in {Completed, Cancelled}
  }

  datatype Slot = Slot(tasker: int, date: int, range: TimeRange, isBooked: bool, isCustom: bool)

  /** `settled` for a payment that is paid or refunded, also in part; `disputed` while a dispute is active. */
  datatype Booking = Booking(customer: int, tasker: int, slot: int, date: int, range: TimeRange, status: Status,
                             isCustomTime: bool, paymentDueAt: Option<int>, captured: bool, settled: bool,
                             disputed: bool)

  datatype Answer = Open | Accepted | Rejected

  datatype Proposal = Proposal(booking: int, date: int, time: string, answer: Answer)

  /** The clock counts milliseconds; dates are days since its start. */
  datatype State = State(now: nat, slots: map<int, Slot>, bookings: map<int, Booking>, proposals: map<int, Proposal>)

  const INITIAL: State := State(0, map[], map[], map[])

  const MS_PER_DAY: nat := 86_400_000
  const LAST_MINUTE: nat := 1439

  // ---- Requests ----

  /**
   * `admitted` stands for the checks on profiles, services and booking policy,
   * `pick` for the slot the database happens to return first among those that
   * match, and `viaRequest` for a booking that spends an accepted time request.
   */
  datatype BookRequest = BookRequest(customer: int, tasker: int, date: int, time: string, allowCustomTime: bool,
                                     viaRequest: bool, admitted: bool, pick: int)

  datatype Move = Move(customer: int, booking: int, date: int, time: string, pick: int)

  datatype Step =
    | Wait(ms: nat)
    | AddSlot(slot: int, tasker: int, date: int, range: TimeRange)
    | Book(booking: int, customSlot: int, request: BookRequest)
    | CancelCustomer(customer: int, booking: int)
    | CancelTasker(tasker: int, booking: int)
    | CancelAdmin(booking: int)
    | ExpirePending(booking: int)
    | ExpireAwaitingPayment(booking: int)
    | FileNoShow(tasker: int, booking: int)
    | Complete(booking: int)
    | Advance(booking: int, status: Status, paymentDueAt: Option<int>, captured: bool)
    | Propose(tasker: int, booking: int, proposal: int, date: int, time: string, pick: int)
    | Reschedule(move: Move)
    | Respond(proposal: int, accept: bool, customer: int, pick: int)
    | Note(booking: int, settled: bool, disputed: bool)
    | Reassign(booking: int, tasker: int, approved: bool)

  function Today(s: State): int {
    s.now / MS_PER_DAY
  }

  function MinuteOfDay(s: State): nat {
    (s.now % MS_PER_DAY) / 60_000
  }

  /** A start that has already elapsed today. */
  predicate IsPastSlotStart(s: State, date: int, startTime: string) {
    && date == Today(s)
    && (ParseTimeToMinutes(startTime).None? || ParseTimeToMinutes(startTime).value <= MinuteOfDay(s))
  }

  /** What may be offered on a date: neither booked nor made for one booking. */
  predicate IsOpen(slot: Slot, tasker: int, date: int) {
    slot.tasker == tasker && slot.date == date && !slot.isBooked && !slot.isCustom
  }

  /** Open slots that start at the requested minute. */
  function Matches(s: State, tasker: int, date: int, time: string): set<int> {
    set id | id in s.slots && IsOpen(s.slots[id], tasker, date) && ParseTimeToMinutes(time).Some?
             && ParseTimeToMinutes(s.slots[id].range.startTime) == ParseTimeToMinutes(time)
  }

  predicate HasMatch(s: State, tasker: int, date: int, time: string) {
    exists id :: id in Matches(s, tasker, date, time)
  }

  /** An open slot at the requested minute that has not started yet. */
  predicate Usable(s: State, tasker: int, date: int, time: string, slot: int) {
    slot in s.slots && slot in Matches(s, tasker, date, time)
        && !IsPastSlotStart(s, date, s.slots[slot].range.startTime)
  }

  predicate Occupies(b: Booking, tasker: int, date: int) {
    b.tasker == tasker && b.date == date && Active(b.status)
  }

  predicate TaskerTimeFree(s: State, tasker: int, date: int, range: TimeRange) {
    forall id :: id in s.bookings && Occupies(s.bookings[id], tasker, date) ==>
          !RangesOverlap(s.bookings[id].range, range)
  }

  function CustomEnd(start: nat, minimum: nat): nat {
    if start + minimum < LAST_MINUTE then start + minimum else LAST_MINUTE
  }

  function CustomRange(time: string, minimumBillableMinutes: nat): TimeRange
    requires ParseTimeToMinutes(time).Some?
  {
    var start := ParseTimeToMinutes(time).value;
    TimeRange(FormatMinutesAs24Hour(start), FormatMinutesAs24Hour(CustomEnd(start, minimumBillableMinutes)))
  }

  // ---- Operations: the new state, or nothing when refused ----

  /** A new booking takes an open slot, or brings a booked slot of its own. */
  function Booked(s: State, booking: int, customSlot: int, r: BookRequest, minimum: nat): Option<State> {
    if r.customer == r.tasker || r.date < Today(s) || !r.admitted || booking in s.bookings then None
    else if ParseTimeToMinutes(r.time).None? then None
    else
      if !r.viaRequest && HasMatch(s, r.tasker, r.date, r.time) then
        if r.pick !in Matches(s, r.tasker, r.date, r.time) then None
        else Placed(s, booking, r, r.pick, s.slots[r.pick].range, false)
      else if !r.viaRequest && !r.allowCustomTime then None
      else if customSlot in s.slots then None
      else Placed(s, booking, r, customSlot, CustomRange(r.time, minimum), true)
  }

  function NewBooking(customer: int, tasker: int, slot: int, date: int, range: TimeRange, custom: bool): Booking {
    Booking(customer, tasker, slot, date, range, Pending, custom, None, false, false, false)
  }

  function Placed(s: State, booking: int, r: BookRequest, slot: int, range: TimeRange, custom: bool): Option<State>
    requires custom || slot in s.slots
  {
    if IsPastSlotStart(s, r.date, range.startTime) || !TaskerTimeFree(s, r.tasker, r.date, range) then None
    else
      var row := if custom then Slot(r.tasker, r.date, range, true, true) else s.slots[slot].(isBooked := true);
      Some(s.(slots := s.slots[slot := row],
              bookings := s.bookings[booking := NewBooking(r.customer, r.tasker, slot, r.date, range, custom)]))
  }

  /** Cancelling gives the slot back. */
  function Released(s: State, booking: int): State
    requires booking in s.bookings
  {
    var b := s.bookings[booking];
    s.(slots := if b.slot in s.slots then s.slots[b.slot := s.slots[b.slot].(isBooked := false)] else s.slots,
       bookings := s.bookings[booking := b.(status := Cancelled)])
  }

  function CancelledBy(s: State, booking: int, allowed: bool): Option<State> {
    if booking in s.bookings && allowed
       && s.bookings[booking].status !in {InProgress, AwaitingApproval, Completed, Cancelled}
    then Some(Released(s, booking)) else None
  }

  predicate Movable(s: State, booking: int) {
    booking in s.bookings && s.bookings[booking].status in {Pending, Confirmed}
  }

  /** A booking moves to an open slot: the new one is claimed, the old one given back. */
  function Moved(s: State, booking: int, date: int, time: string, pick: int): Option<State>
    requires booking in s.bookings
  {
    var b := s.bookings[booking];
    if !Usable(s, b.tasker, date, time, pick) then None
    else
      var claimed := s.slots[pick := s.slots[pick].(isBooked := true)];
      var slots := if b.slot in claimed then claimed[b.slot := claimed[b.slot].(isBooked := false)] else claimed;
      Some(s.(slots := slots,
              bookings := s.bookings[booking := b.(slot := pick, date := date, range := s.slots[pick].range,
                                                   status := Pending, isCustomTime := false)]))
  }

  function Rescheduled(s: State, m: Move): Option<State> {
    if m.date < Today(s) || !Movable(s, m.booking) || s.bookings[m.booking].customer != m.customer then None
    else Moved(s, m.booking, m.date, m.time, m.pick)
  }

  predicate HasOpenProposal(s: State, booking: int) {
    exists p :: p in s.proposals && s.proposals[p].booking == booking && s.proposals[p].answer.Open?
  }

  function Proposed(s: State, tasker: int, booking: int, proposal: int, date: int, time: string,
                    pick: int): Option<State> {
    if date < Today(s) || !Movable(s, booking) || s.bookings[booking].tasker != tasker || proposal in s.proposals
       || HasOpenProposal(s, booking) || !Usable(s, tasker, date, time, pick)
    then None
    else Some(s.(proposals := s.proposals[proposal := Proposal(booking, date, s.slots[pick].range.startTime, Open)]))
  }

  function Responded(s: State, proposal: int, accept: bool, customer: int, pick: int): Option<State> {
    if proposal !in s.proposals || !s.proposals[proposal].answer.Open? || !Movable(s, s.proposals[proposal].booking)
       || s.bookings[s.proposals[proposal].booking].customer != customer
    then None
    else
      var p := s.proposals[proposal];
      if !accept then Some(s.(proposals := s.proposals[proposal := p.(answer := Rejected)]))
      else
        match Moved(s, p.booking, p.date, p.time, pick)
        case None => None
        case Some(s') => Some(s'.(proposals := s'.proposals[proposal := p.(answer := Accepted)]))
  }

  /**
   * What an administrator's reassignment asks for: work not begun, nothing disputed or
   * settled, another approved tasker.
   */
  predicate MayReassign(s: State, booking: int, tasker: int, approved: bool) {
    && booking in s.bookings && !s.bookings[booking].disputed
    && s.bookings[booking].status in {Pending, Confirmed, EnRoute, Arrived}
    && !s.bookings[booking].settled && tasker != s.bookings[booking].tasker && approved
  }

  /** The booking goes to another tasker, and its slot is opened. */
  function HandedOver(s: State, booking: int, tasker: int, approved: bool): Option<State> {
    if !MayReassign(s, booking, tasker, approved) then None
    else
      var b := s.bookings[booking];
      Some(s.(slots := if b.slot in s.slots then s.slots[b.slot := s.slots[b.slot].(isBooked := false)] else s.slots,
              bookings := s.bookings[booking := b.(tasker := tasker, status := Pending)]))
  }

  function Attempt(s: State, step: Step, minimum: nat): Option<State> {
    match step
    case Wait(ms) => Some(s.(now := s.now + ms))
    case AddSlot(slot, tasker, date, range) =>
      if slot in s.slots then None else Some(s.(slots := s.slots[slot := Slot(tasker, date, range, false, false)]))
    case Book(booking, customSlot, request) => Booked(s, booking, customSlot, request, minimum)
    case CancelCustomer(customer, booking) =>
      CancelledBy(s, booking, booking in s.bookings && s.bookings[booking].customer == customer)
    case CancelTasker(tasker, booking) =>
      CancelledBy(s, booking, booking in s.bookings && s.bookings[booking].tasker == tasker)
    case CancelAdmin(booking) =>
      // Neither under an active dispute nor once the payment is settled.
      CancelledBy(s, booking, && booking in s.bookings && !s.bookings[booking].disputed
                              && !s.bookings[booking].settled)
    case ExpirePending(booking) => CancelledBy(s, booking, booking in s.bookings && s.bookings[booking].status.Pending?)
    case ExpireAwaitingPayment(booking) =>
      CancelledBy(s, booking, && booking in s.bookings && s.bookings[booking].status.AwaitingPayment?
                              && !s.bookings[booking].captured && s.bookings[booking].paymentDueAt.Some?
                              && s.bookings[booking].paymentDueAt.value <= s.now)
    case FileNoShow(tasker, booking) =>
      CancelledBy(s, booking, && booking in s.bookings && s.bookings[booking].tasker == tasker
                              && s.bookings[booking].status.Arrived?)
    case Complete(booking) =>
      if booking in s.bookings && s.bookings[booking].status in {InProgress, AwaitingApproval}
      then Some(s.(bookings := s.bookings[booking := s.bookings[booking].(status := Completed)])) else None
    case Advance(booking, status, paymentDueAt, captured) =>
      // Acceptance, payment, travel and work move a booking between active statuses.
      if booking in s.bookings && Active(s.bookings[booking].status) && Active(status)
      then Some(s.(bookings := s.bookings[booking :=
                  s.bookings[booking].(status := status, paymentDueAt := paymentDueAt, captured := captured)]))
      else None
    case Propose(tasker, booking, proposal, date, time, pick) =>
      Proposed(s, tasker, booking, proposal, date, time, pick)
    case Reschedule(move) => Rescheduled(s, move)
    case Respond(proposal, accept, customer, pick) => Responded(s, proposal, accept, customer, pick)
    case Note(booking, settled, disputed) =>
      if booking in s.bookings
      then Some(s.(bookings := s.bookings[booking := s.bookings[booking].(settled := settled, disputed := disputed)]))
      else None
    case Reassign(booking, tasker, approved) => HandedOver(s, booking, tasker, approved)
  }

  function Do(s: State, step: Step, minimum: nat): State {
    match Attempt(s, step, minimum)
    case None => s
    case Some(s') => s'
  }

  function Run(steps: seq<Step>, minimum: nat): State {
    if steps == [] then INITIAL else Do(Run(steps[..|steps| - 1], minimum), steps[|steps| - 1], minimum)
  }

  // ---- Slot ownership ----

  predicate Holds(s: State, booking: int, slot: int) {
    booking in s.bookings && s.bookings[booking].slot == slot && s.bookings[booking].status != Cancelled
  }

  /** Marked booked exactly when some booking that is not cancelled holds it. */
  ghost predicate MarkedRight(s: State) {
    forall id :: id in s.slots ==> (s.slots[id].isBooked <==> exists b :: Holds(s, b, id))
  }

  /** No two bookings that are not cancelled hold the same slot. */
  ghost predicate HeldOnce(s: State) {
    forall a, b, id: int :: Holds(s, a, id) && Holds(s, b, id) ==> a == b
  }

  ghost predicate ShareCustomSlot(s: State, a: int, b: int)
    requires a in s.bookings && b in s.bookings
  {
    s.bookings[a].slot == s.bookings[b].slot && s.bookings[a].slot in s.slots && s.slots[s.bookings[a].slot].isCustom
  }

  /** Every booking has a slot of its tasker; a slot made for one booking is never taken by another. */
  ghost predicate SlotsFit(s: State) {
    && (forall b :: b in s.bookings ==> s.bookings[b].slot in s.slots)
    && (forall b :: b in s.bookings && s.bookings[b].status != Cancelled ==>
          s.slots[s.bookings[b].slot].tasker == s.bookings[b].tasker)
    && (forall a, b :: a in s.bookings && b in s.bookings && ShareCustomSlot(s, a, b) ==> a == b)
  }

  /** A slot that is offered to others although a booking still holds it. */
  predicate OpenWhileHeld(s: State, booking: int, slot: int) {
    Holds(s, booking, slot) && slot in s.slots && !s.slots[slot].isBooked
  }

  ghost predicate SlotsOk(s: State) {
    MarkedRight(s) && HeldOnce(s) && SlotsFit(s)
  }

  lemma ReleasedKeepsSlots(s: State, booking: int)
    requires SlotsOk(s) && booking in s.bookings && s.bookings[booking].status != Cancelled
    ensures SlotsOk(Released(s, booking))
  {
    var s', slot := Released(s, booking), s.bookings[booking].slot;
    assert Holds(s, booking, slot);
    assert forall b, id: int :: Holds(s', b, id) <==> Holds(s, b, id) && b != booking;
  }

  lemma PlacedKeepsSlots(s: State, booking: int, r: BookRequest, slot: int, range: TimeRange, custom: bool)
    requires SlotsOk(s) && booking !in s.bookings
    requires if custom then slot !in s.slots else slot in s.slots && IsOpen(s.slots[slot], r.tasker, r.date)
    ensures Placed(s, booking, r, slot, range, custom).Some? ==>
              SlotsOk(Placed(s, booking, r, slot, range, custom).value)
  {
    var placed := Placed(s, booking, r, slot, range, custom);
    if placed.Some? {
      var s' := placed.value;
      assert forall b, id: int :: Holds(s', b, id) <==> Holds(s, b, id) || (b == booking && id == slot);
      assert forall b :: !Holds(s, b, slot);
      assert Holds(s', booking, slot);
    }
  }

  lemma UsableIsOpen(s: State, tasker: int, date: int, time: string, pick: int)
    requires Usable(s, tasker, date, time, pick)
    ensures pick in s.slots && IsOpen(s.slots[pick], tasker, date)
  {
  }

  lemma MovedKeepsSlots(s: State, booking: int, date: int, time: string, pick: int)
    requires SlotsOk(s) && booking in s.bookings && s.bookings[booking].status != Cancelled
    ensures Moved(s, booking, date, time, pick).Some? ==> SlotsOk(Moved(s, booking, date, time, pick).value)
  {
    var moved := Moved(s, booking, date, time, pick);
    if moved.Some? {
      var s', former := moved.value, s.bookings[booking].slot;
      UsableIsOpen(s, s.bookings[booking].tasker, date, time, pick);
      hide Usable, Matches, IsPastSlotStart;
      assert Holds(s, booking, former);
      assert forall b, id: int :: Holds(s', b, id) <==> if b == booking then id == pick else Holds(s, b, id);
      hide Moved;
      assert forall b :: !Holds(s, b, pick);
      assert Holds(s', booking, pick);
    }
  }

  /** Replacing a row without touching its slot, tasker or liveness changes nothing about slots. */
  lemma SameSlotsOk(s: State, s': State)
    requires SlotsOk(s) && s'.slots == s.slots && s'.bookings.Keys == s.bookings.Keys
    requires forall b :: b in s.bookings ==>
      && s'.bookings[b].slot == s.bookings[b].slot && s'.bookings[b].tasker == s.bookings[b].tasker
      && (s'.bookings[b].status == Cancelled <==> s.bookings[b].status == Cancelled)
    ensures SlotsOk(s')
  {
    assert forall b, id: int :: Holds(s', b, id) <==> Holds(s, b, id);
    assert forall a, b :: a in s.bookings && b in s.bookings ==>
             (ShareCustomSlot(s', a, b) <==> ShareCustomSlot(s, a, b));
  }

  lemma BookedKeepsSlots(s: State, booking: int, customSlot: int, r: BookRequest, minimum: nat)
    requires SlotsOk(s)
    ensures Booked(s, booking, customSlot, r, minimum).Some? ==>
              SlotsOk(Booked(s, booking, customSlot, r, minimum).value)
  {
    if Booked(s, booking, customSlot, r, minimum).Some? {
      hide SlotsOk, Placed;
      if !r.viaRequest && HasMatch(s, r.tasker, r.date, r.time) {
        PlacedKeepsSlots(s, booking, r, r.pick, s.slots[r.pick].range, false);
      } else {
        PlacedKeepsSlots(s, booking, r, customSlot, CustomRange(r.time, minimum), true);
      }
    }
  }

  /** A reassignment that is carried out. */
  predicate Reassigns(s: State, step: Step) {
    step.Reassign? && MayReassign(s, step.booking, step.tasker, step.approved)
  }

  lemma StepKeepsSlots(s: State, step: Step, minimum: nat)
    requires SlotsOk(s) && !Reassigns(s, step)
    ensures SlotsOk(Do(s, step, minimum))
  {
    if Attempt(s, step, minimum).Some? {
      if step.Book? {
        hide Booked, SlotsOk;
        BookedKeepsSlots(s, step.booking, step.customSlot, step.request, minimum);
      } else if step.Reschedule? {
        hide Moved, SlotsOk, Booked;
        MovedKeepsSlots(s, step.move.booking, step.move.date, step.move.time, step.move.pick);
      } else if step.Respond? {
        AnswerKeepsSlots(s, step, minimum);
      } else {
        PlainStepKeepsSlots(s, step, minimum);
      }
    }
  }

  lemma AnswerKeepsSlots(s: State, step: Step, minimum: nat)
    requires SlotsOk(s) && step.Respond?
    ensures SlotsOk(Do(s, step, minimum))
  {
    if Attempt(s, step, minimum).Some? {
      hide Moved, SlotsOk;
      var p := s.proposals[step.proposal];
      MovedKeepsSlots(s, p.booking, p.date, p.time, step.pick);
      var before := if step.accept then Moved(s, p.booking, p.date, p.time, step.pick).value else s;
      assert SlotsOk(before);
      SameSlotsOk(before, Do(s, step, minimum));
    }
  }

  lemma CancelledKeepsSlots(s: State, booking: int, allowed: bool)
    requires SlotsOk(s)
    ensures CancelledBy(s, booking, allowed).Some? ==> SlotsOk(CancelledBy(s, booking, allowed).value)
  {
    hide SlotsOk, Released;
    if CancelledBy(s, booking, allowed).Some? {
      ReleasedKeepsSlots(s, booking);
    }
  }

  lemma ProposedKeepsSlots(s: State, step: Step, minimum: nat)
    requires SlotsOk(s) && step.Propose?
    ensures SlotsOk(Do(s, step, minimum))
  {
    hide SlotsOk, Usable, HasOpenProposal;
    SameSlotsOk(s, Do(s, step, minimum));
  }

  predicate Cancels(step: Step) {
    || step.CancelCustomer? || step.CancelTasker? || step.CancelAdmin? || step.ExpirePending?
    || step.ExpireAwaitingPayment? || step.FileNoShow?
  }

  lemma CancellationDoes(s: State, step: Step, minimum: nat) returns (allowed: bool)
    requires Cancels(step)
    ensures Attempt(s, step, minimum) == CancelledBy(s, step.booking, allowed)
  {
    hide CancelledBy;
    allowed := match step
      case CancelCustomer(customer, booking) => booking in s.bookings && s.bookings[booking].customer == customer
      case CancelTasker(tasker, booking) => booking in s.bookings && s.bookings[booking].tasker == tasker
      case ExpirePending(booking) => booking in s.bookings && s.bookings[booking].status.Pending?
      case ExpireAwaitingPayment(booking) =>
        && booking in s.bookings && s.bookings[booking].status.AwaitingPayment? && !s.bookings[booking].captured
        && s.bookings[booking].paymentDueAt.Some? && s.bookings[booking].paymentDueAt.value <= s.now
      case FileNoShow(tasker, booking) =>
        booking in s.bookings && s.bookings[booking].tasker == tasker && s.bookings[booking].status.Arrived?
      case CancelAdmin(booking) =>
        booking in s.bookings && !s.bookings[booking].disputed && !s.bookings[booking].settled
      case _ => true;
  }

  lemma PlainStepKeepsSlots(s: State, step: Step, minimum: nat)
    requires SlotsOk(s) && !step.Reassign? && !step.Book? && !step.Reschedule? && !step.Respond?
    ensures SlotsOk(Do(s, step, minimum))
  {
    if Cancels(step) {
      var allowed := CancellationDoes(s, step, minimum);
      CancelledKeepsSlots(s, step.booking, allowed);
      hide SlotsOk, Attempt, CancelledBy;
    } else if step.AddSlot? {
      NewSlotOk(s, step, minimum);
    } else if step.Propose? {
      ProposedKeepsSlots(s, step, minimum);
    } else {
      hide SlotsOk, CancelledBy, Proposed, Responded, Rescheduled, Booked, HandedOver;
      SameSlotsOk(s, Do(s, step, minimum));
    }
  }

  lemma NewSlotOk(s: State, step: Step, minimum: nat)
    requires SlotsOk(s) && step.AddSlot?
    ensures SlotsOk(Do(s, step, minimum))
  {
    var s' := Do(s, step, minimum);
    assert forall b, id: int :: Holds(s', b, id) <==> Holds(s, b, id);
  }

  /** No reassignment in the run is carried out. */
  predicate NeverReassigned(steps: seq<Step>, minimum: nat) {
    steps == [] || (NeverReassigned(steps[..|steps| - 1], minimum)
                    && !Reassigns(Run(steps[..|steps| - 1], minimum), steps[|steps| - 1]))
  }

  lemma {:induction false} RunKeepsSlots(steps: seq<Step>, minimum: nat)
    requires NeverReassigned(steps, minimum)
    ensures SlotsOk(Run(steps, minimum))
  {
    if steps != [] {
      RunKeepsSlots(steps[..|steps| - 1], minimum);
      hide Do, SlotsOk, Reassigns;
      StepKeepsSlots(Run(steps[..|steps| - 1], minimum), steps[|steps| - 1], minimum);
    }
  }

  // ---- Main results on slots ----

  /**
   * In every run in which no reassignment is carried out, a slot is marked booked exactly when one
   * and only one booking that is not cancelled holds it.
   */
  lemma BookedMeansHeldByOne(steps: seq<Step>, minimum: nat, slot: int)
    requires NeverReassigned(steps, minimum) && slot in Run(steps, minimum).slots
    ensures var s := Run(steps, minimum);
            && (s.slots[slot].isBooked <==> exists b :: Holds(s, b, slot))
            && forall a, b :: Holds(s, a, slot) && Holds(s, b, slot) ==> a == b
  {
    RunKeepsSlots(steps, minimum);
  }

  /** No step opens a slot under another booking: whoever keeps holding a slot keeps it marked. */
  lemma ReleaseIsPrivate(steps: seq<Step>, minimum: nat, step: Step, other: int, slot: int)
    requires NeverReassigned(steps, minimum) && !Reassigns(Run(steps, minimum), step)
    requires Holds(Run(steps, minimum), other, slot) && Holds(Do(Run(steps, minimum), step, minimum), other, slot)
    ensures var s' := Do(Run(steps, minimum), step, minimum); slot in s'.slots && s'.slots[slot].isBooked
  {
    RunKeepsSlots(steps, minimum);
    hide Do, Reassigns;
    StepKeepsSlots(Run(steps, minimum), step, minimum);
  }

  /** A slot made for one booking is never offered, and stays with that booking for good. */
  lemma CustomSlotsStayPrivate(steps: seq<Step>, minimum: nat, slot: int)
    requires NeverReassigned(steps, minimum)
    requires slot in Run(steps, minimum).slots && Run(steps, minimum).slots[slot].isCustom
    ensures forall tasker, date, time: string :: slot !in Matches(Run(steps, minimum), tasker, date, time)
    ensures forall a, b :: a in Run(steps, minimum).bookings && b in Run(steps, minimum).bookings
                           && Run(steps, minimum).bookings[a].slot == slot == Run(steps, minimum).bookings[b].slot
                           ==> a == b
  {
    RunKeepsSlots(steps, minimum);
    var s := Run(steps, minimum);
    hide Run;
    forall a, b | a in s.bookings && b in s.bookings && s.bookings[a].slot == slot == s.bookings[b].slot
      ensures a == b
    {
      assert ShareCustomSlot(s, a, b);
    }
  }

  /**
   * Reassignment is different. On sound slots it leaves them sound exactly when it
   * is refused: the booking is under way, finished, cancelled, disputed or
   * settled, or the other tasker is the same or not approved. When it is carried
   * out, the booking's slot is open although the booking still holds it.
   */
  lemma ReassignmentBreaksOwnership(s: State, booking: int, tasker: int, approved: bool, minimum: nat)
    requires SlotsOk(s)
    ensures SlotsOk(Do(s, Reassign(booking, tasker, approved), minimum)) <==>
            || booking !in s.bookings || s.bookings[booking].disputed || s.bookings[booking].settled
            || s.bookings[booking].status in {AwaitingPayment, InProgress, AwaitingApproval, Completed, Cancelled}
            || tasker == s.bookings[booking].tasker || !approved
    ensures MayReassign(s, booking, tasker, approved) ==>
              OpenWhileHeld(Do(s, Reassign(booking, tasker, approved), minimum), booking, s.bookings[booking].slot)
  {
    if MayReassign(s, booking, tasker, approved) {
      var s' := Do(s, Reassign(booking, tasker, approved), minimum);
      assert Holds(s', booking, s.bookings[booking].slot);
    }
  }

  /** All through a run slots are sound exactly when no reassignment in it is carried out. */
  lemma {:induction false} SlotsSoundIffNeverReassigned(steps: seq<Step>, minimum: nat)
    ensures (forall n :: 0 <= n <= |steps| ==> SlotsOk(Run(steps[..n], minimum))) <==> NeverReassigned(steps, minimum)
  {
    if NeverReassigned(steps, minimum) {
      RunKeepsSlots(steps, minimum);
    }
    hide Do, SlotsOk, Reassigns;
    assert steps[..|steps|] == steps;
    if steps == [] {
      NothingIsHeld();
    } else {
      var before, last := steps[..|steps| - 1], steps[|steps| - 1];
      SlotsSoundIffNeverReassigned(before, minimum);
      assert forall n :: 0 <= n <= |before| ==> before[..n] == steps[..n];
      assert before[..|before|] == before;
      if Reassigns(Run(before, minimum), last) && SlotsOk(Run(before, minimum)) {
        ReassignedIsUnsound(Run(before, minimum), last, minimum);
      }
    }
  }

  lemma NothingIsHeld()
    ensures SlotsOk(INITIAL)
  {
  }

  lemma ReassignedIsUnsound(s: State, step: Step, minimum: nat)
    requires SlotsOk(s) && Reassigns(s, step)
    ensures !SlotsOk(Do(s, step, minimum))
  {
    ReassignmentBreaksOwnership(s, step.booking, step.tasker, step.approved, minimum);
  }

  // ---- What a booking gets ----

  /**
   * For today and later dates: a start is past exactly when its minute, counted from the
   * first day, has been reached.
   */
  lemma PastMeansMinuteReached(s: State, date: int, startTime: string)
    requires date >= Today(s) && ParseTimeToMinutes(startTime).Some?
    ensures IsPastSlotStart(s, date, startTime) <==> date * 1440 + ParseTimeToMinutes(startTime).value <= s.now / 60_000
  {
    var start := ParseTimeToMinutes(startTime).value;
    hide ParseTimeToMinutes;
    MinutesOfNow(s.now);
  }

  lemma MinutesOfNow(now: nat)
    ensures now / 60_000 == (now / MS_PER_DAY) * 1440 + (now % MS_PER_DAY) / 60_000
    ensures (now % MS_PER_DAY) / 60_000 < 1440
  {
  }

  lemma CoversSomething(range: TimeRange, start: nat, end: nat)
    requires ParseTimeToMinutes(range.startTime) == Some(start) && ParseTimeToMinutes(range.endTime) == Some(end)
    ensures (exists minute: nat :: Covers(range, minute)) <==> start < end
  {
    hide ParseTimeToMinutes;
    if start < end {
      assert Covers(range, start);
    }
  }

  /** A custom time starts at the requested minute, lasts the minimum, and ends on the same day at the latest. */
  lemma CustomTimeIsTheRequestedOne(time: string, minimum: nat)
    requires ParseTimeToMinutes(time).Some?
    ensures var start := ParseTimeToMinutes(time).value; var range := CustomRange(time, minimum);
            && ParseTimeToMinutes(range.startTime) == Some(start)
            && ParseTimeToMinutes(range.endTime) == Some(if start + minimum <= 1439 then start + minimum else 1439)
            && ((exists minute: nat :: Covers(range, minute)) <==> minimum > 0 && start < LAST_MINUTE)
  {
    hide ParseTimeToMinutes, FormatMinutesAs24Hour, Covers;
    var start, range := ParseTimeToMinutes(time).value, CustomRange(time, minimum);
    Format24RoundTrip(start);
    Format24RoundTrip(CustomEnd(start, minimum));
    CoversSomething(range, start, CustomEnd(start, minimum));
  }

  /**
   * A new booking starts at the requested minute of the requested date, later than
   * the present minute, on a slot with its own tasker, date and range that is marked booked; a
   * listed slot at that minute is taken whenever there is one, unless the booking
   * spends a time request.
   */
  lemma BookedAsRequested(s: State, booking: int, customSlot: int, r: BookRequest, minimum: nat)
    requires Booked(s, booking, customSlot, r, minimum).Some?
    ensures ParseTimeToMinutes(r.time).Some?
    ensures var s' := Booked(s, booking, customSlot, r, minimum).value;
            && booking in s'.bookings && s'.bookings == s.bookings[booking := s'.bookings[booking]]
            && (var b := s'.bookings[booking];
                && b.customer == r.customer && b.tasker == r.tasker && b.date == r.date && b.status == Pending
                && ParseTimeToMinutes(b.range.startTime) == ParseTimeToMinutes(r.time)
                && b.date * 1440 + ParseTimeToMinutes(r.time).value > s.now / 60_000
                && b.slot in s'.slots
                && s'.slots == s.slots[b.slot := Slot(b.tasker, b.date, b.range, true, b.isCustomTime)]
                && b.paymentDueAt.None? && !b.captured && !b.settled && !b.disputed
                && (b.isCustomTime <==> r.viaRequest || !HasMatch(s, r.tasker, r.date, r.time)))
  {
    CustomTimeIsTheRequestedOne(r.time, minimum);
    var range := Booked(s, booking, customSlot, r, minimum).value.bookings[booking].range;
    hide ParseTimeToMinutes, CustomRange, TaskerTimeFree, IsPastSlotStart, HasMatch, Covers;
    PastMeansMinuteReached(s, r.date, range.startTime);
  }

  /**
   * A moved booking waits for confirmation on the chosen slot, at the requested minute
   * and date; nobody else's moves.
   */
  lemma MovedAsRequested(s: State, booking: int, date: int, time: string, pick: int)
    requires SlotsOk(s) && booking in s.bookings && s.bookings[booking].status != Cancelled
    requires Moved(s, booking, date, time, pick).Some?
    ensures var s' := Moved(s, booking, date, time, pick).value; var b := s.bookings[booking];
            && s'.bookings == s.bookings[booking := b.(slot := pick, date := date, range := s.slots[pick].range,
                                                       status := Pending, isCustomTime := false)]
            && ParseTimeToMinutes(s.slots[pick].range.startTime) == ParseTimeToMinutes(time)
            && s.slots[pick].date == date && s.slots[pick].tasker == b.tasker
            && !s.slots[pick].isBooked && s'.slots[pick].isBooked && !s'.slots[b.slot].isBooked
  {
    assert Holds(s, booking, s.bookings[booking].slot);
    hide IsPastSlotStart, ParseTimeToMinutes;
  }

  // ---- When an operation is admitted, row by row ----

  /** A slot of this tasker that is listed for the date, neither booked nor made for one booking, at this minute. */
  predicate IsListedAt(s: State, slot: int, tasker: int, date: int, minute: nat) {
    && slot in s.slots && s.slots[slot].tasker == tasker && s.slots[slot].date == date
    && !s.slots[slot].isBooked && !s.slots[slot].isCustom
    && ParseTimeToMinutes(s.slots[slot].range.startTime) == Some(minute)
  }

  predicate SomethingIsListedAt(s: State, tasker: int, date: int, minute: nat) {
    exists slot :: slot in s.slots && IsListedAt(s, slot, tasker, date, minute)
  }

  /** No booking of the tasker on the date, unless it is completed or cancelled, overlaps the range. */
  predicate NobodyIsServed(s: State, tasker: int, date: int, range: TimeRange) {
    forall id :: id in s.bookings && s.bookings[id].tasker == tasker && s.bookings[id].date == date
                 && s.bookings[id].status != Completed && s.bookings[id].status != Cancelled ==>
      !RangesOverlap(s.bookings[id].range, range)
  }

  /** From the requested minute for as long as the minimum, until 23:59 at the latest. */
  function CustomTime(minute: nat, minimum: nat): TimeRange {
    TimeRange(FormatMinutesAs24Hour(minute),
              FormatMinutesAs24Hour(if minute + minimum <= 1439 then minute + minimum else 1439))
  }

  /**
   * Whether a request can be booked: by another person than the tasker, admitted,
   * for a readable minute that has not been reached, at a listed slot or else at a
   * custom time where that is allowed or a request is spent, and while the tasker
   * serves nobody else.
   */
  predicate MayBook(s: State, r: BookRequest, minimum: nat) {
    && r.customer != r.tasker && r.admitted && r.date >= s.now / 86_400_000
    && ParseTimeToMinutes(r.time).Some?
    && (var minute := ParseTimeToMinutes(r.time).value;
        && r.date * 1440 + minute > s.now / 60_000
        && if r.viaRequest || !SomethingIsListedAt(s, r.tasker, r.date, minute)
           then (r.viaRequest || r.allowCustomTime)
                && NobodyIsServed(s, r.tasker, r.date, CustomTime(minute, minimum))
           else IsListedAt(s, r.pick, r.tasker, r.date, minute)
                && NobodyIsServed(s, r.tasker, r.date, s.slots[r.pick].range))
  }

  lemma MatchesAreListed(s: State, tasker: int, date: int, time: string)
    ensures forall slot :: slot in Matches(s, tasker, date, time) <==>
              && ParseTimeToMinutes(time).Some?
              && IsListedAt(s, slot, tasker, date, ParseTimeToMinutes(time).value)
    ensures HasMatch(s, tasker, date, time) <==>
            && ParseTimeToMinutes(time).Some?
            && SomethingIsListedAt(s, tasker, date, ParseTimeToMinutes(time).value)
  {
    hide ParseTimeToMinutes;
  }

  lemma FreeMeansNobodyIsServed(s: State, tasker: int, date: int, range: TimeRange)
    ensures TaskerTimeFree(s, tasker, date, range) <==> NobodyIsServed(s, tasker, date, range)
  {
    hide RangesOverlap;
  }

  /** A booking is made exactly when the request can be booked. */
  lemma BookedExactlyWhen(s: State, booking: int, customSlot: int, r: BookRequest, minimum: nat)
    requires booking !in s.bookings && customSlot !in s.slots
    ensures Booked(s, booking, customSlot, r, minimum).Some? <==> MayBook(s, r, minimum)
  {
    MatchesAreListed(s, r.tasker, r.date, r.time);
    if r.date >= Today(s) && ParseTimeToMinutes(r.time).Some? {
      var minute := ParseTimeToMinutes(r.time).value;
      CustomTimeIsTheRequestedOne(r.time, minimum);
      PastMeansMinuteReached(s, r.date, CustomRange(r.time, minimum).startTime);
      FreeMeansNobodyIsServed(s, r.tasker, r.date, CustomTime(minute, minimum));
      if r.pick in Matches(s, r.tasker, r.date, r.time) {
        PastMeansMinuteReached(s, r.date, s.slots[r.pick].range.startTime);
        FreeMeansNobodyIsServed(s, r.tasker, r.date, s.slots[r.pick].range);
      }
    }
    hide ParseTimeToMinutes, TaskerTimeFree, NobodyIsServed, IsPastSlotStart, Matches, HasMatch, SomethingIsListedAt,
         IsListedAt, FormatMinutesAs24Hour;
  }

  /** Work has not begun, and the booking is not over. */
  predicate BeforeWork(s: State, booking: int) {
    booking in s.bookings && s.bookings[booking].status in {Pending, AwaitingPayment, Confirmed, EnRoute, Arrived}
  }

  /**
   * Who may cancel when: the participants before work, an administrator
   * unless disputed or settled, the sweeps, a no-show.
   */
  predicate MayCancel(s: State, step: Step)
    requires Cancels(step)
  {
    && BeforeWork(s, step.booking)
    && var b := s.bookings[step.booking];
       match step
       case CancelCustomer(customer, _) => b.customer == customer
       case CancelTasker(tasker, _) => b.tasker == tasker
       case CancelAdmin(_) => !b.disputed && !b.settled
       case ExpirePending(_) => b.status == Pending
       case ExpireAwaitingPayment(_) =>
         b.status == AwaitingPayment && !b.captured && b.paymentDueAt.Some? && b.paymentDueAt.value <= s.now
       case FileNoShow(tasker, _) => b.tasker == tasker && b.status == Arrived
       case _ => false
  }

  /** A cancellation is carried out exactly then; it cancels this booking, opens its slot and does nothing else. */
  lemma CancelledExactlyWhen(s: State, step: Step, minimum: nat)
    requires Cancels(step)
    ensures Attempt(s, step, minimum).Some? <==> MayCancel(s, step)
    ensures MayCancel(s, step) ==>
              var s' := Do(s, step, minimum); var b := s.bookings[step.booking];
              && s'.bookings == s.bookings[step.booking := b.(status := Cancelled)]
              && s'.slots.Keys == s.slots.Keys
              && (b.slot in s.slots ==>
                    s'.slots[b.slot] == s.slots[b.slot].(isBooked := false))
              && (forall slot :: slot in s.slots && slot != b.slot ==> s'.slots[slot] == s.slots[slot])
              && s'.proposals == s.proposals && s'.now == s.now
  {
    if step.booking in s.bookings {
      var status := s.bookings[step.booking].status;
      assert status.Pending? || status.AwaitingPayment? || status.Confirmed? || status.EnRoute? || status.Arrived?
             || status.InProgress? || status.AwaitingApproval? || status.Completed? || status.Cancelled?;
    }
  }

  /** Only work that was begun or handed in is completed, and slots keep their marks and times meanwhile. */
  lemma CompletedExactlyWhen(s: State, booking: int, minimum: nat)
    ensures Attempt(s, Complete(booking), minimum).Some? <==>
            && booking in s.bookings
            && (s.bookings[booking].status == InProgress || s.bookings[booking].status == AwaitingApproval)
    ensures Attempt(s, Complete(booking), minimum).Some? ==>
            Do(s, Complete(booking), minimum) ==
            s.(bookings := s.bookings[booking := s.bookings[booking].(status := Completed)])
  {
  }

  /** Acceptance, payment, travel and work only touch an active booking and leave it active; notes touch no status. */
  lemma SurroundingsRule(s: State, booking: int, status: Status, due: Option<int>, captured: bool, flags: (bool, bool),
                         minimum: nat)
    ensures var advanced := Attempt(s, Advance(booking, status, due, captured), minimum);
            && (advanced.Some? <==>
                  && booking in s.bookings && status != Cancelled && status != Completed
                  && s.bookings[booking].status != Cancelled && s.bookings[booking].status != Completed)
            && (advanced.Some? ==>
                  var b := s.bookings[booking];
                  advanced.value == s.(bookings := s.bookings[booking :=
                    Booking(b.customer, b.tasker, b.slot, b.date, b.range, status, b.isCustomTime, due, captured,
                            b.settled, b.disputed)]))
    ensures var noted := Attempt(s, Note(booking, flags.0, flags.1), minimum);
            && (noted.Some? <==> booking in s.bookings)
            && (noted.Some? ==>
                  var b := s.bookings[booking];
                  noted.value == s.(bookings := s.bookings[booking :=
                    Booking(b.customer, b.tasker, b.slot, b.date, b.range, b.status, b.isCustomTime, b.paymentDueAt,
                            b.captured, flags.0, flags.1)]))
  {
  }

  /** Whether a booking before work on it has begun can go to this slot. */
  predicate MayMoveTo(s: State, booking: int, date: int, time: string, slot: int) {
    && booking in s.bookings && (s.bookings[booking].status == Pending || s.bookings[booking].status == Confirmed)
    && date >= s.now / 86_400_000 && ParseTimeToMinutes(time).Some?
    && date * 1440 + ParseTimeToMinutes(time).value > s.now / 60_000
    && IsListedAt(s, slot, s.bookings[booking].tasker, date, ParseTimeToMinutes(time).value)
  }

  lemma UsableMeansMayMoveTo(s: State, booking: int, date: int, time: string, slot: int)
    requires booking in s.bookings && date >= Today(s)
    requires s.bookings[booking].status == Pending || s.bookings[booking].status == Confirmed
    ensures Usable(s, s.bookings[booking].tasker, date, time, slot) <==> MayMoveTo(s, booking, date, time, slot)
  {
    MatchesAreListed(s, s.bookings[booking].tasker, date, time);
    if slot in s.slots && ParseTimeToMinutes(s.slots[slot].range.startTime).Some? {
      PastMeansMinuteReached(s, date, s.slots[slot].range.startTime);
    }
    hide ParseTimeToMinutes, IsPastSlotStart, Matches;
  }

  /** A customer's move, exactly: of the customer's own booking, and to a slot it can go to. */
  lemma RescheduledExactlyWhen(s: State, m: Move)
    ensures Rescheduled(s, m).Some? <==>
            && MayMoveTo(s, m.booking, m.date, m.time, m.pick) && s.bookings[m.booking].customer == m.customer
  {
    if m.date >= Today(s) && Movable(s, m.booking) {
      UsableMeansMayMoveTo(s, m.booking, m.date, m.time, m.pick);
    }
    hide Usable, ParseTimeToMinutes, IsListedAt;
  }

  /** There is a way to reschedule exactly when the booking is the customer's and there is a slot it can go to. */
  lemma SomeMoveExactlyWhen(s: State, customer: int, booking: int, date: int, time: string)
    ensures (exists slot :: Rescheduled(s, Move(customer, booking, date, time, slot)).Some?) <==>
            && booking in s.bookings && s.bookings[booking].customer == customer
            && exists slot :: MayMoveTo(s, booking, date, time, slot)
  {
    forall slot
      ensures Rescheduled(s, Move(customer, booking, date, time, slot)).Some? <==>
              && MayMoveTo(s, booking, date, time, slot)
              && s.bookings[booking].customer == customer
    {
      RescheduledExactlyWhen(s, Move(customer, booking, date, time, slot));
    }
    hide Rescheduled;
    if booking in s.bookings {
      hide MayMoveTo;
    }
  }

  /**
   * A tasker's proposal, exactly: for the tasker's own booking without an open
   * proposal, and for a slot the booking can go to; it keeps the date asked for
   * and the start of that slot, and changes nothing else.
   */
  lemma ProposedExactlyWhen(s: State, tasker: int, booking: int, proposal: int, date: int, time: string, pick: int)
    ensures Proposed(s, tasker, booking, proposal, date, time, pick).Some? <==>
            && MayMoveTo(s, booking, date, time, pick) && s.bookings[booking].tasker == tasker
            && proposal !in s.proposals
            && (forall p :: p in s.proposals && s.proposals[p].booking == booking ==> s.proposals[p].answer != Open)
    ensures Proposed(s, tasker, booking, proposal, date, time, pick).Some? ==>
              var s' := Proposed(s, tasker, booking, proposal, date, time, pick).value;
              && proposal in s'.proposals && s' == s.(proposals := s.proposals[proposal := s'.proposals[proposal]])
              && s'.proposals[proposal].booking == booking && s'.proposals[proposal].date == date
              && ParseTimeToMinutes(s'.proposals[proposal].time) == ParseTimeToMinutes(time)
              && s'.proposals[proposal].answer == Open
  {
    MatchesAreListed(s, tasker, date, time);
    if date >= Today(s) && Movable(s, booking) && s.bookings[booking].tasker == tasker {
      UsableMeansMayMoveTo(s, booking, date, time, pick);
    }
    hide ParseTimeToMinutes, IsListedAt, Matches, IsPastSlotStart, MayMoveTo;
    assert MayMoveTo(s, booking, date, time, pick) ==> date >= Today(s) && Movable(s, booking) by {
      MoveIsAhead(s, booking, date, time, pick);
    }
  }

  lemma MoveIsAhead(s: State, booking: int, date: int, time: string, pick: int)
    ensures MayMoveTo(s, booking, date, time, pick) ==> date >= Today(s) && Movable(s, booking)
  {
  }

  /** Whether the customer's acceptance finds a slot at the proposed time; a past date is not asked about. */
  predicate MayAcceptInto(s: State, p: Proposal, slot: int) {
    && p.booking in s.bookings && ParseTimeToMinutes(p.time).Some?
    && IsListedAt(s, slot, s.bookings[p.booking].tasker, p.date, ParseTimeToMinutes(p.time).value)
    && (p.date == s.now / 86_400_000 ==> p.date * 1440 + ParseTimeToMinutes(p.time).value > s.now / 60_000)
  }

  lemma UsableMeansMayAcceptInto(s: State, p: Proposal, slot: int)
    requires p.booking in s.bookings
    ensures Usable(s, s.bookings[p.booking].tasker, p.date, p.time, slot) <==> MayAcceptInto(s, p, slot)
  {
    MatchesAreListed(s, s.bookings[p.booking].tasker, p.date, p.time);
    if slot in s.slots && ParseTimeToMinutes(s.slots[slot].range.startTime).Some? && p.date >= Today(s) {
      PastMeansMinuteReached(s, p.date, s.slots[slot].range.startTime);
    }
    hide ParseTimeToMinutes, Matches, IsListedAt;
  }

  /**
   * A customer's answer, exactly: to an open proposal for the customer's own
   * booking, before anybody is on the way; an acceptance needs a slot besides.
   */
  lemma RespondedExactlyWhen(s: State, proposal: int, accept: bool, customer: int, pick: int)
    ensures Responded(s, proposal, accept, customer, pick).Some? <==>
            && proposal in s.proposals && s.proposals[proposal].answer == Open
            && s.proposals[proposal].booking in s.bookings
            && (var b := s.bookings[s.proposals[proposal].booking];
                b.customer == customer && (b.status == Pending || b.status == Confirmed))
            && (accept ==> MayAcceptInto(s, s.proposals[proposal], pick))
    ensures Responded(s, proposal, accept, customer, pick).Some? ==>
              var s' := Responded(s, proposal, accept, customer, pick).value;
              && s'.proposals == s.proposals[proposal :=
                   s.proposals[proposal].(answer := if accept then Accepted else Rejected)]
              && (!accept ==> s'.bookings == s.bookings && s'.slots == s.slots)
  {
    if proposal in s.proposals && s.proposals[proposal].booking in s.bookings {
      UsableMeansMayAcceptInto(s, s.proposals[proposal], pick);
    }
    hide Usable, MayAcceptInto;
  }

  /**
   * An accepted proposal lands ahead of the present minute exactly when its date
   * has not gone by; only proposing and rescheduling ask for the date.
   */
  lemma AcceptedMoveIsAheadIffDateIsNotPast(s: State, proposal: int, customer: int, pick: int)
    requires Responded(s, proposal, true, customer, pick).Some?
    ensures var p := s.proposals[proposal];
            var b := Responded(s, proposal, true, customer, pick).value.bookings[p.booking];
            && b.date == p.date && ParseTimeToMinutes(b.range.startTime).Some?
            && (b.date * 1440 + ParseTimeToMinutes(b.range.startTime).value > s.now / 60_000 <==>
                p.date >= s.now / 86_400_000)
  {
    RespondedExactlyWhen(s, proposal, true, customer, pick);
    MinutesOfNow(s.now);
    hide ParseTimeToMinutes, Usable;
  }

  // ---- Proposals ----

  predicate BothOpen(s: State, p: int, q: int)
    requires p in s.proposals && q in s.proposals
  {
    s.proposals[p].booking == s.proposals[q].booking && s.proposals[p].answer.Open? && s.proposals[q].answer.Open?
  }

  predicate OneOpenProposal(s: State) {
    forall p, q :: p in s.proposals && q in s.proposals && BothOpen(s, p, q) ==> p == q
  }

  lemma BookingLeavesProposals(s: State, step: Step, minimum: nat)
    requires step.Book?
    ensures Do(s, step, minimum).proposals == s.proposals
  {
    hide TaskerTimeFree, Matches, HasMatch, IsPastSlotStart, CustomRange;
  }

  lemma StepKeepsOneOpen(s: State, step: Step, minimum: nat)
    requires OneOpenProposal(s)
    ensures OneOpenProposal(Do(s, step, minimum))
  {
    var s' := Do(s, step, minimum);
    if step.Book? {
      BookingLeavesProposals(s, step, minimum);
    }
    hide Usable, Booked, IsPastSlotStart;
    forall p, q | p in s'.proposals && q in s'.proposals && BothOpen(s', p, q) ensures p == q {
      if p in s.proposals && q in s.proposals {
        assert BothOpen(s, p, q) ==> p == q;
      }
    }
  }

  /** A booking has at most one proposal that waits for an answer. */
  lemma {:induction false} AtMostOneOpenProposal(steps: seq<Step>, minimum: nat)
    ensures OneOpenProposal(Run(steps, minimum))
  {
    if steps != [] {
      hide Do, OneOpenProposal;
      AtMostOneOpenProposal(steps[..|steps| - 1], minimum);
      StepKeepsOneOpen(Run(steps[..|steps| - 1], minimum), steps[|steps| - 1], minimum);
    } else {
      NoProposalsYet();
    }
  }

  lemma NoProposalsYet()
    ensures OneOpenProposal(INITIAL)
  {
  }

  /** An answered proposal is never open again. */
  lemma AnswersAreFinal(s: State, step: Step, minimum: nat, proposal: int)
    requires proposal in s.proposals && !s.proposals[proposal].answer.Open?
    ensures proposal in Do(s, step, minimum).proposals
            && Do(s, step, minimum).proposals[proposal] == s.proposals[proposal]
  {
    if step.Book? {
      BookingLeavesProposals(s, step, minimum);
    }
    hide Usable, Booked, IsPastSlotStart;
  }

  // ---- Time ----

  ghost predicate Clash(s: State, a: int, b: int)
    requires a in s.bookings && b in s.bookings
  {
    && a != b && Occupies(s.bookings[a], s.bookings[b].tasker, s.bookings[b].date) && Active(s.bookings[b].status)
    && RangesOverlap(s.bookings[a].range, s.bookings[b].range)
  }

  /** No tasker is in two places: active bookings of one tasker on one date do not overlap. */
  ghost predicate TimesApart(s: State) {
    forall a, b :: a in s.bookings && b in s.bookings ==> !Clash(s, a, b)
  }

  /** Whether a range is free for a booking, leaving the booking itself out of account. */
  ghost predicate FreeFor(s: State, booking: int, tasker: int, date: int, range: TimeRange) {
    forall id :: id in s.bookings && id != booking && Occupies(s.bookings[id], tasker, date) ==>
      !RangesOverlap(s.bookings[id].range, range)
  }

  lemma OverlapIsMutual(a: TimeRange, b: TimeRange)
    ensures RangesOverlap(a, b) <==> RangesOverlap(b, a)
  {
  }

  lemma PlacedKeepsTimes(s: State, booking: int, r: BookRequest, slot: int, range: TimeRange, custom: bool)
    requires TimesApart(s) && booking !in s.bookings && (custom || slot in s.slots)
    ensures Placed(s, booking, r, slot, range, custom).Some? ==>
              TimesApart(Placed(s, booking, r, slot, range, custom).value)
  {
    var placed := Placed(s, booking, r, slot, range, custom);
    if placed.Some? {
      var s' := placed.value;
      hide RangesOverlap;
      forall a, b | a in s'.bookings && b in s'.bookings ensures !Clash(s', a, b) {
        OverlapIsMutual(s'.bookings[a].range, s'.bookings[b].range);
        if a != booking && b != booking {
          assert !Clash(s, a, b);
        }
      }
    }
  }

  /**
   * Moving one booking keeps times apart exactly when its new range is free; the
   * code claims a slot but never asks whether the tasker's time is free.
   */
  lemma MoveKeepsTimesIffFree(s: State, s': State, booking: int)
    requires TimesApart(s) && booking in s.bookings && booking in s'.bookings && Active(s'.bookings[booking].status)
    requires s'.bookings == s.bookings[booking := s'.bookings[booking]]
    ensures TimesApart(s') <==>
            FreeFor(s, booking, s'.bookings[booking].tasker, s'.bookings[booking].date, s'.bookings[booking].range)
  {
    var row := s'.bookings[booking];
    hide RangesOverlap;
    if TimesApart(s') {
      forall id | id in s.bookings && id != booking && Occupies(s.bookings[id], row.tasker, row.date)
        ensures !RangesOverlap(s.bookings[id].range, row.range)
      {
        assert !Clash(s', id, booking);
      }
    }
    if FreeFor(s, booking, row.tasker, row.date, row.range) {
      forall a, b | a in s'.bookings && b in s'.bookings ensures !Clash(s', a, b) {
        OverlapIsMutual(s'.bookings[a].range, s'.bookings[b].range);
        if a != booking && b != booking {
          assert !Clash(s, a, b);
        }
      }
    }
  }

  /** A step that gives a booking a new time or a new tasker. */
  predicate Moves(step: Step) {
    step.Reschedule? || (step.Respond? && step.accept) || step.Reassign?
  }

  lemma BookedKeepsTimes(s: State, booking: int, customSlot: int, r: BookRequest, minimum: nat)
    requires TimesApart(s)
    ensures Booked(s, booking, customSlot, r, minimum).Some? ==>
              TimesApart(Booked(s, booking, customSlot, r, minimum).value)
  {
    if Booked(s, booking, customSlot, r, minimum).Some? {
      hide TimesApart, Placed;
      if !r.viaRequest && HasMatch(s, r.tasker, r.date, r.time) {
        PlacedKeepsTimes(s, booking, r, r.pick, s.slots[r.pick].range, false);
      } else {
        PlacedKeepsTimes(s, booking, r, customSlot, CustomRange(r.time, minimum), true);
      }
    }
  }

  lemma OtherStepsKeepTimes(s: State, step: Step, minimum: nat)
    requires TimesApart(s) && !step.Book? && !Moves(step)
    ensures TimesApart(Do(s, step, minimum))
  {
    var s' := Do(s, step, minimum);
    hide RangesOverlap, Matches, IsPastSlotStart;
    forall a, b | a in s'.bookings && b in s'.bookings ensures !Clash(s', a, b) {
      assert !Clash(s, a, b);
    }
  }

  lemma StepKeepsTimes(s: State, step: Step, minimum: nat)
    requires TimesApart(s) && !Moves(step)
    ensures TimesApart(Do(s, step, minimum))
  {
    if step.Book? {
      hide TimesApart, Booked;
      BookedKeepsTimes(s, step.booking, step.customSlot, step.request, minimum);
    } else {
      hide TimesApart, Attempt;
      OtherStepsKeepTimes(s, step, minimum);
    }
  }

  lemma {:induction false} RunKeepsTimes(steps: seq<Step>, minimum: nat)
    requires forall i :: 0 <= i < |steps| ==> !Moves(steps[i])
    ensures TimesApart(Run(steps, minimum))
  {
    if steps != [] {
      RunKeepsTimes(steps[..|steps| - 1], minimum);
      hide Do, TimesApart;
      StepKeepsTimes(Run(steps[..|steps| - 1], minimum), steps[|steps| - 1], minimum);
    }
  }

  // ---- Main results on time ----

  /**
   * In every run without moves, however listed slots and custom times overlap, no
   * minute of a date is covered by two active bookings of one tasker.
   */
  lemma NoMinuteIsTakenTwice(steps: seq<Step>, minimum: nat, a: int, b: int, minute: nat)
    requires forall i :: 0 <= i < |steps| ==> !Moves(steps[i])
    requires a in Run(steps, minimum).bookings && b in Run(steps, minimum).bookings && a != b
    requires var s := Run(steps, minimum);
             && Occupies(s.bookings[a], s.bookings[b].tasker, s.bookings[b].date) && Active(s.bookings[b].status)
    ensures !(Covers(Run(steps, minimum).bookings[a].range, minute)
              && Covers(Run(steps, minimum).bookings[b].range, minute))
  {
    RunKeepsTimes(steps, minimum);
    hide Run, RangesOverlap, Covers;
    var s := Run(steps, minimum);
    assert !Clash(s, a, b);
    OverlapMeansSharedMinute(s.bookings[a].range, s.bookings[b].range);
  }

  /** The booking a move is about, and the tasker, date and range it ends up with. */
  datatype Target = Target(booking: int, tasker: int, date: int, range: TimeRange)

  function TargetOf(s: State, step: Step, minimum: nat): Target
    requires Moves(step) && Attempt(s, step, minimum).Some?
  {
    if step.Reschedule? then
      Target(step.move.booking, s.bookings[step.move.booking].tasker, step.move.date, s.slots[step.move.pick].range)
    else if step.Respond? then
      var p := s.proposals[step.proposal];
      Target(p.booking, s.bookings[p.booking].tasker, p.date, s.slots[step.pick].range)
    else Target(step.booking, step.tasker, s.bookings[step.booking].date, s.bookings[step.booking].range)
  }

  lemma MoveHitsItsTarget(s: State, step: Step, minimum: nat)
    requires Moves(step) && Attempt(s, step, minimum).Some?
    ensures var t := TargetOf(s, step, minimum); var s' := Do(s, step, minimum);
            && t.booking in s.bookings && t.booking in s'.bookings
            && s'.bookings == s.bookings[t.booking := s'.bookings[t.booking]]
            && Active(s'.bookings[t.booking].status)
            && s'.bookings[t.booking].tasker == t.tasker
            && s'.bookings[t.booking].date == t.date && s'.bookings[t.booking].range == t.range
  {
  }

  /**
   * A reschedule, an accepted proposal or a reassignment keeps the tasker's times
   * apart exactly when the range it ends up with is free of the tasker's other
   * active bookings: a question that booking asks and these three do not.
   */
  lemma MovesKeepTimesIffFree(s: State, step: Step, minimum: nat)
    requires TimesApart(s) && Moves(step) && Attempt(s, step, minimum).Some?
    ensures var t := TargetOf(s, step, minimum);
            TimesApart(Do(s, step, minimum)) <==> FreeFor(s, t.booking, t.tasker, t.date, t.range)
  {
    MoveHitsItsTarget(s, step, minimum);
    hide Do, Attempt, TargetOf, TimesApart, FreeFor;
    MoveKeepsTimesIffFree(s, Do(s, step, minimum), TargetOf(s, step, minimum).booking);
  }

  /** A move that is carried out although another active booking takes part of its time. */
  ghost predicate MovesIntoTaken(s: State, step: Step, minimum: nat) {
    && Moves(step) && Attempt(s, step, minimum).Some?
    && var t := TargetOf(s, step, minimum); !FreeFor(s, t.booking, t.tasker, t.date, t.range)
  }

  ghost predicate NeverMovedIntoTaken(steps: seq<Step>, minimum: nat) {
    steps == [] || (NeverMovedIntoTaken(steps[..|steps| - 1], minimum)
                    && !MovesIntoTaken(Run(steps[..|steps| - 1], minimum), steps[|steps| - 1], minimum))
  }

  lemma StepKeepsTimesIffNotIntoTaken(s: State, step: Step, minimum: nat)
    requires TimesApart(s)
    ensures TimesApart(Do(s, step, minimum)) <==> !MovesIntoTaken(s, step, minimum)
  {
    if Moves(step) && Attempt(s, step, minimum).Some? {
      MovesKeepTimesIffFree(s, step, minimum);
    } else if !Moves(step) {
      StepKeepsTimes(s, step, minimum);
    }
    hide TimesApart, FreeFor, TargetOf;
  }

  /**
   * All through a run no tasker is in two places at once, if and only if no move
   * in it goes to a time that another active booking of the tasker takes. Bookings,
   * from the list or at a custom time, never need such a condition.
   */
  lemma {:induction false} TimesApartIffNeverMovedIntoTaken(steps: seq<Step>, minimum: nat)
    ensures (forall n :: 0 <= n <= |steps| ==> TimesApart(Run(steps[..n], minimum)))
            <==> NeverMovedIntoTaken(steps, minimum)
  {
    hide Do, TimesApart, MovesIntoTaken;
    assert steps[..|steps|] == steps;
    if steps == [] {
      NobodyIsBusy();
    } else {
      var before, last := steps[..|steps| - 1], steps[|steps| - 1];
      TimesApartIffNeverMovedIntoTaken(before, minimum);
      assert forall n :: 0 <= n <= |before| ==> before[..n] == steps[..n];
      assert before[..|before|] == before;
      if TimesApart(Run(before, minimum)) {
        StepKeepsTimesIffNotIntoTaken(Run(before, minimum), last, minimum);
      }
    }
  }

  lemma NobodyIsBusy()
    ensures TimesApart(INITIAL)
  {
  }

  // ---- A run in which a reschedule double-books the tasker ----

  function Clock(minutes: nat): string {
    FormatMinutesAs24Hour(minutes)
  }

  const NINE_TO_TEN: TimeRange := TimeRange(Clock(540), Clock(600))
  const TEN_TO_NOON: TimeRange := TimeRange(Clock(600), Clock(720))
  const ELEVEN_TO_NOON: TimeRange := TimeRange(Clock(660), Clock(720))

  const TWO_LISTED_SLOTS: State := State(0, map[1 := Slot(9, 1, NINE_TO_TEN, false, false),
                                                2 := Slot(9, 1, TEN_TO_NOON, false, false)], map[], map[])

  lemma ClocksRead()
    ensures ParseTimeToMinutes(Clock(540)) == Some(540) && ParseTimeToMinutes(Clock(600)) == Some(600)
    ensures ParseTimeToMinutes(Clock(660)) == Some(660) && ParseTimeToMinutes(Clock(720)) == Some(720)
  {
    Format24RoundTrip(540);
    Format24RoundTrip(600);
    Format24RoundTrip(660);
    Format24RoundTrip(720);
  }

  /** Nine o'clock is booked from the list. */
  lemma NineIsBooked() returns (s: State)
    ensures s == Do(TWO_LISTED_SLOTS, Book(100, 0, BookRequest(1, 9, 1, Clock(540), true, false, true, 1)), 60)
    ensures s == TWO_LISTED_SLOTS.(slots := TWO_LISTED_SLOTS.slots[1 := Slot(9, 1, NINE_TO_TEN, true, false)],
                                   bookings := map[100 := NewBooking(1, 9, 1, 1, NINE_TO_TEN, false)])
  {
    ClocksRead();
    hide Clock, ParseTimeToMinutes;
    s := Do(TWO_LISTED_SLOTS, Book(100, 0, BookRequest(1, 9, 1, Clock(540), true, false, true, 1)), 60);
    assert 1 in Matches(TWO_LISTED_SLOTS, 9, 1, Clock(540));
  }

  /** Eleven o'clock is booked as a custom time, inside the listed slot from ten to noon. */
  lemma ElevenIsBooked(s: State) returns (s': State)
    requires s == TWO_LISTED_SLOTS.(slots := TWO_LISTED_SLOTS.slots[1 := Slot(9, 1, NINE_TO_TEN, true, false)],
                                    bookings := map[100 := NewBooking(1, 9, 1, 1, NINE_TO_TEN, false)])
    ensures s' == Do(s, Book(101, 3, BookRequest(2, 9, 1, Clock(660), true, false, true, 0)), 60)
    ensures s' == s.(slots := s.slots[3 := Slot(9, 1, ELEVEN_TO_NOON, true, true)],
                     bookings := s.bookings[101 := NewBooking(2, 9, 3, 1, ELEVEN_TO_NOON, true)])
  {
    ClocksRead();
    hide Clock, ParseTimeToMinutes;
    s' := Do(s, Book(101, 3, BookRequest(2, 9, 1, Clock(660), true, false, true, 0)), 60);
    assert !HasMatch(s, 9, 1, Clock(660));
    CustomEleven();
    assert !RangesOverlap(NINE_TO_TEN, ELEVEN_TO_NOON);
  }

  lemma CustomEleven()
    ensures ParseTimeToMinutes(Clock(660)).Some? && CustomRange(Clock(660), 60) == ELEVEN_TO_NOON
  {
    ClocksRead();
  }

  const NINE: BookRequest := BookRequest(1, 9, 1, Clock(540), true, false, true, 1)
  const ELEVEN: BookRequest := BookRequest(2, 9, 1, Clock(660), true, false, true, 0)
  const MORNING: seq<Step> := [
    AddSlot(1, 9, 1, NINE_TO_TEN), AddSlot(2, 9, 1, TEN_TO_NOON), Book(100, 0, NINE), Book(101, 3, ELEVEN)]

  lemma RunOne(steps: seq<Step>, step: Step, minimum: nat)
    ensures Run(steps + [step], minimum) == Do(Run(steps, minimum), step, minimum)
  {
    assert (steps + [step])[..|steps|] == steps;
  }

  lemma MorningIsBooked() returns (s: State)
    ensures s == Run(MORNING, 60)
    ensures s == State(0, map[1 := Slot(9, 1, NINE_TO_TEN, true, false), 2 := Slot(9, 1, TEN_TO_NOON, false, false),
                              3 := Slot(9, 1, ELEVEN_TO_NOON, true, true)],
                       map[100 := NewBooking(1, 9, 1, 1, NINE_TO_TEN, false),
                           101 := NewBooking(2, 9, 3, 1, ELEVEN_TO_NOON, true)], map[])
  {
    hide Clock, Booked;
    RunOne([], MORNING[0], 60);
    RunOne([MORNING[0]], MORNING[1], 60);
    assert [MORNING[0]] + [MORNING[1]] == MORNING[..2];
    assert [] + [MORNING[0]] == [MORNING[0]];
    assert Run(MORNING[..2], 60) == TWO_LISTED_SLOTS;
    s := NineIsBooked();
    RunOne(MORNING[..2], MORNING[2], 60);
    assert MORNING[..2] + [MORNING[2]] == MORNING[..3];
    s := ElevenIsBooked(s);
    RunOne(MORNING[..3], MORNING[3], 60);
    assert MORNING[..3] + [MORNING[3]] == MORNING;
  }

  /** Then the first booking is rescheduled to ten o'clock, and the hour before noon is booked twice. */
  lemma RescheduleCanDoubleBook()
    ensures TimesApart(Run(MORNING, 60))
    ensures Rescheduled(Run(MORNING, 60), Move(1, 100, 1, Clock(600), 2)).Some?
    ensures !TimesApart(Do(Run(MORNING, 60), Reschedule(Move(1, 100, 1, Clock(600), 2)), 60))
  {
    RunKeepsTimes(MORNING, 60);
    var s := MorningIsBooked();
    hide Run, TimesApart, Clock, Do, Attempt;
    var m := Move(1, 100, 1, Clock(600), 2);
    TenIsTaken(s);
    assert Attempt(s, Reschedule(m), 60).Some? by { RescheduleIsAttempted(s, m); }
    MovesKeepTimesIffFree(s, Reschedule(m), 60);
  }

  lemma RescheduleIsAttempted(s: State, m: Move)
    ensures Attempt(s, Reschedule(m), 60) == Rescheduled(s, m)
  {
  }

  lemma TenIsTaken(s: State)
    requires s == State(0, map[1 := Slot(9, 1, NINE_TO_TEN, true, false), 2 := Slot(9, 1, TEN_TO_NOON, false, false),
                               3 := Slot(9, 1, ELEVEN_TO_NOON, true, true)],
                        map[100 := NewBooking(1, 9, 1, 1, NINE_TO_TEN, false),
                            101 := NewBooking(2, 9, 3, 1, ELEVEN_TO_NOON, true)], map[])
    ensures Rescheduled(s, Move(1, 100, 1, Clock(600), 2)).Some?
    ensures s.slots[2].range == TEN_TO_NOON && !FreeFor(s, 100, 9, 1, TEN_TO_NOON)
  {
    ClocksRead();
    hide Clock, ParseTimeToMinutes;
    assert 2 in Matches(s, 9, 1, Clock(600));
    assert Occupies(s.bookings[101], 9, 1) && RangesOverlap(s.bookings[101].range, TEN_TO_NOON);
  }

  // ---- A run in which a reassignment lets a slot be booked twice ----

  const NINE_AGAIN: BookRequest := BookRequest(3, 9, 1, Clock(540), true, false, true, 1)
  const HANDED_ON: seq<Step> := [
    AddSlot(1, 9, 1, NINE_TO_TEN), AddSlot(2, 9, 1, TEN_TO_NOON), Book(100, 0, NINE), Reassign(100, 8, true),
    Book(102, 0, NINE_AGAIN)]

  /** The slot of a reassigned booking is booked by the next customer. */
  lemma NineIsBookedAgain(s: State) returns (s': State)
    requires s == TWO_LISTED_SLOTS.(bookings := map[100 := NewBooking(1, 8, 1, 1, NINE_TO_TEN, false)])
    ensures s' == Do(s, Book(102, 0, NINE_AGAIN), 60)
    ensures s' == s.(slots := s.slots[1 := Slot(9, 1, NINE_TO_TEN, true, false)],
                     bookings := s.bookings[102 := NewBooking(3, 9, 1, 1, NINE_TO_TEN, false)])
  {
    ClocksRead();
    hide Clock, ParseTimeToMinutes;
    s' := Do(s, Book(102, 0, NINE_AGAIN), 60);
    assert 1 in Matches(s, 9, 1, Clock(540));
  }

  lemma NineIsHandedOn() returns (s: State)
    ensures s == Run(HANDED_ON[..4], 60) && SlotsOk(Run(HANDED_ON[..3], 60))
    ensures s == TWO_LISTED_SLOTS.(bookings := map[100 := NewBooking(1, 8, 1, 1, NINE_TO_TEN, false)])
  {
    hide Clock, Booked, SlotsOk;
    RunOne([], HANDED_ON[0], 60);
    RunOne([HANDED_ON[0]], HANDED_ON[1], 60);
    assert [] + [HANDED_ON[0]] == [HANDED_ON[0]] == HANDED_ON[..1];
    assert [HANDED_ON[0]] + [HANDED_ON[1]] == HANDED_ON[..2];
    assert Run(HANDED_ON[..2], 60) == TWO_LISTED_SLOTS;
    s := NineIsBooked();
    RunOne(HANDED_ON[..2], HANDED_ON[2], 60);
    assert HANDED_ON[..2] + [HANDED_ON[2]] == HANDED_ON[..3];
    RunOne(HANDED_ON[..3], HANDED_ON[3], 60);
    assert HANDED_ON[..3] + [HANDED_ON[3]] == HANDED_ON[..4];
    assert NeverReassigned(HANDED_ON[..1], 60) && NeverReassigned(HANDED_ON[..2], 60);
    RunKeepsSlots(HANDED_ON[..3], 60);
    s := Do(s, HANDED_ON[3], 60);
    assert s.slots == TWO_LISTED_SLOTS.slots;
  }

  lemma NineIsHeldTwice() returns (s: State)
    ensures s == Run(HANDED_ON, 60)
    ensures s == TWO_LISTED_SLOTS.(slots := TWO_LISTED_SLOTS.slots[1 := Slot(9, 1, NINE_TO_TEN, true, false)],
                                   bookings := map[100 := NewBooking(1, 8, 1, 1, NINE_TO_TEN, false),
                                                   102 := NewBooking(3, 9, 1, 1, NINE_TO_TEN, false)])
  {
    s := NineIsHandedOn();
    hide Run, Clock, Booked;
    RunOne(HANDED_ON[..4], HANDED_ON[4], 60);
    assert HANDED_ON[..4] + [HANDED_ON[4]] == HANDED_ON;
    s := NineIsBookedAgain(s);
  }

  lemma OneIsOpenForTheNext(s: State)
    requires s == TWO_LISTED_SLOTS.(bookings := map[100 := NewBooking(1, 8, 1, 1, NINE_TO_TEN, false)])
    ensures OpenWhileHeld(s, 100, 1)
  {
  }

  lemma OneIsOpenedUnderTheSecond(s: State)
    requires s == TWO_LISTED_SLOTS.(slots := TWO_LISTED_SLOTS.slots[1 := Slot(9, 1, NINE_TO_TEN, true, false)],
                                    bookings := map[100 := NewBooking(1, 8, 1, 1, NINE_TO_TEN, false),
                                                    102 := NewBooking(3, 9, 1, 1, NINE_TO_TEN, false)])
    ensures Holds(s, 100, 1) && Holds(s, 102, 1)
    ensures OpenWhileHeld(Do(s, CancelAdmin(100), 60), 102, 1)
  {
    hide Clock;
  }

  lemma OpenSlotIsUnsound(s: State, booking: int, slot: int)
    requires OpenWhileHeld(s, booking, slot)
    ensures !SlotsOk(s)
  {
  }

  /**
   * A booking is reassigned, the next customer books the slot it still holds, and
   * when the first booking is cancelled the slot is opened under the second.
   */
  lemma ReassignmentCanDoubleBook()
    ensures SlotsOk(Run(HANDED_ON[..3], 60)) && OpenWhileHeld(Run(HANDED_ON[..4], 60), 100, 1)
    ensures Holds(Run(HANDED_ON, 60), 100, 1) && Holds(Run(HANDED_ON, 60), 102, 1)
    ensures OpenWhileHeld(Do(Run(HANDED_ON, 60), CancelAdmin(100), 60), 102, 1)
    ensures !SlotsOk(Run(HANDED_ON[..4], 60)) && !SlotsOk(Run(HANDED_ON, 60))
  {
    hide *;
    var handedOn := NineIsHandedOn();
    var twice := NineIsHeldTwice();
    OneIsOpenForTheNext(handedOn);
    OpenSlotIsUnsound(handedOn, 100, 1);
    OneIsOpenedUnderTheSecond(twice);
    HeldTwiceIsUnsound(twice, 100, 102, 1);
  }

  lemma HeldTwiceIsUnsound(s: State, a: int, b: int, slot: int)
    requires Holds(s, a, slot) && Holds(s, b, slot) && a != b
    ensures !SlotsOk(s)
  {
  }

  // ---- A run in which a booking is moved to a day that has gone by ----

  const LATE_ANSWER: seq<Step> := [
    AddSlot(1, 9, 1, NINE_TO_TEN), AddSlot(2, 9, 1, TEN_TO_NOON), Book(100, 0, NINE),
    Propose(9, 100, 5, 1, Clock(600), 2), Wait(2 * MS_PER_DAY), Respond(5, true, 1, 2)]

  /** Nine o'clock on day 1 is booked and ten o'clock of that day proposed, two days before the answer. */
  lemma AnswerIsLate() returns (s: State)
    ensures s == Run(LATE_ANSWER[..5], 60)
    ensures s == State(2 * MS_PER_DAY, TWO_LISTED_SLOTS.slots[1 := Slot(9, 1, NINE_TO_TEN, true, false)],
                       map[100 := NewBooking(1, 9, 1, 1, NINE_TO_TEN, false)],
                       map[5 := Proposal(100, 1, Clock(600), Open)])
  {
    hide Clock, Booked;
    RunOne([], LATE_ANSWER[0], 60);
    RunOne([LATE_ANSWER[0]], LATE_ANSWER[1], 60);
    assert [] + [LATE_ANSWER[0]] == [LATE_ANSWER[0]];
    assert [LATE_ANSWER[0]] + [LATE_ANSWER[1]] == LATE_ANSWER[..2];
    assert Run(LATE_ANSWER[..2], 60) == TWO_LISTED_SLOTS;
    s := NineIsBooked();
    RunOne(LATE_ANSWER[..2], LATE_ANSWER[2], 60);
    assert LATE_ANSWER[..2] + [LATE_ANSWER[2]] == LATE_ANSWER[..3];
    RunOne(LATE_ANSWER[..3], LATE_ANSWER[3], 60);
    assert LATE_ANSWER[..3] + [LATE_ANSWER[3]] == LATE_ANSWER[..4];
    RunOne(LATE_ANSWER[..4], LATE_ANSWER[4], 60);
    assert LATE_ANSWER[..4] + [LATE_ANSWER[4]] == LATE_ANSWER[..5];
    s := TenIsProposed(s);
    s := Do(s, LATE_ANSWER[4], 60);
  }

  lemma TenIsProposed(s: State) returns (s': State)
    requires s == TWO_LISTED_SLOTS.(slots := TWO_LISTED_SLOTS.slots[1 := Slot(9, 1, NINE_TO_TEN, true, false)],
                                    bookings := map[100 := NewBooking(1, 9, 1, 1, NINE_TO_TEN, false)])
    ensures s' == Do(s, LATE_ANSWER[3], 60)
    ensures s' == s.(proposals := map[5 := Proposal(100, 1, Clock(600), Open)])
  {
    ClocksRead();
    hide Clock, ParseTimeToMinutes;
    s' := Do(s, LATE_ANSWER[3], 60);
    assert 2 in Matches(s, 9, 1, Clock(600));
  }

  /** The customer accepts on day 2, and the booking is at ten o'clock of day 1, waiting to be confirmed. */
  lemma LateAnswerMovesIntoThePast()
    ensures var s := Run(LATE_ANSWER, 60);
            && 100 in s.bookings && s.bookings[100].status == Pending && s.bookings[100].slot == 2
            && s.bookings[100].date == 1 < Today(s)
  {
    var s := AnswerIsLate();
    hide Run, Clock;
    RunOne(LATE_ANSWER[..5], LATE_ANSWER[5], 60);
    assert LATE_ANSWER[..5] + [LATE_ANSWER[5]] == LATE_ANSWER;
    TenIsAccepted(s);
  }

  lemma TenIsAccepted(s: State)
    requires s == State(2 * MS_PER_DAY, TWO_LISTED_SLOTS.slots[1 := Slot(9, 1, NINE_TO_TEN, true, false)],
                        map[100 := NewBooking(1, 9, 1, 1, NINE_TO_TEN, false)],
                        map[5 := Proposal(100, 1, Clock(600), Open)])
    ensures var s' := Do(s, LATE_ANSWER[5], 60);
            && s'.now == 2 * MS_PER_DAY
            && s'.bookings == map[100 := NewBooking(1, 9, 2, 1, TEN_TO_NOON, false)]
  {
    ClocksRead();
    hide Clock, ParseTimeToMinutes;
    assert 2 in Matches(s, 9, 1, Clock(600));
  }
}
