/** The booking transactions as they change the slot, booking and proposal tables. */
module BookingService {
  import opened Common
  import opened Scheduling
  import opened TimeUtil

  datatype Error = NotFound | Forbidden | BadRequest | Conflict

  class BookingsService {
    const minimumBillableMinutes: nat
    var now: nat
    var slots: map<int, Slot>
    var bookings: map<int, Booking>
    var proposals: map<int, Proposal>
    ghost var history: seq<Step>

    function Snapshot(): State
      reads this
    {
      State(now, slots, bookings, proposals)
    }

    ghost predicate Valid()
      reads this
    {
      Snapshot() == Run(history, minimumBillableMinutes)
    }

    constructor (minimumBillableMinutes: nat)
      ensures Valid() && history == [] && this.minimumBillableMinutes == minimumBillableMinutes
    {
      this.minimumBillableMinutes := minimumBillableMinutes;
      now, slots, bookings, proposals, history := 0, map[], map[], map[], [];
    }

    ghost method Record(step: Step)
      modifies this`history
      ensures history == old(history) + [step]
      ensures Run(history, minimumBillableMinutes)
              == Do(Run(old(history), minimumBillableMinutes), step, minimumBillableMinutes)
    {
      RunOne(history, step, minimumBillableMinutes);
      history := history + [step];
    }

    method FindOpenSlotsForDate(tasker: int, date: int) returns (open: set<int>)
      ensures forall id :: id in open <==> id in slots && IsOpen(slots[id], tasker, date)
    {
      open := set id | id in slots && IsOpen(slots[id], tasker, date);
    }

    /** A compare-and-set on one row. */
    method ClaimSlot(slot: int) returns (claimed: bool)
      modifies this`slots
      ensures claimed <==> slot in old(slots) && !old(slots)[slot].isBooked
      ensures slots == if claimed then old(slots)[slot := old(slots)[slot].(isBooked := true)] else old(slots)
    {
      claimed := slot in slots && !slots[slot].isBooked;
      if claimed {
        slots := slots[slot := slots[slot].(isBooked := true)];
      }
    }

    method ReleaseSlot(slot: int)
      modifies this`slots
      ensures slots == if slot in old(slots) then old(slots)[slot := old(slots)[slot].(isBooked := false)]
                       else old(slots)
    {
      if slot in slots {
        slots := slots[slot := slots[slot].(isBooked := false)];
      }
    }

    /** The slot that the search for a start minute comes up with first, if there is one. */
    method FindSlotAt(tasker: int, date: int, time: string) returns (found: Option<int>)
      ensures found.Some? <==> HasMatch(Snapshot(), tasker, date, time)
      ensures found.Some? ==> found.value in Matches(Snapshot(), tasker, date, time)
    {
      var open := FindOpenSlotsForDate(tasker, date);
      var requested := ParseTimeToMinutes(time);
      assert forall id :: id in Matches(Snapshot(), tasker, date, time) <==>
        id in open && requested.Some? && ParseTimeToMinutes(slots[id].range.startTime) == requested;
      if id :| id in open && requested.Some? && ParseTimeToMinutes(slots[id].range.startTime) == requested {
        return Some(id);
      }
      return None;
    }

    /** Goes through the tasker's active bookings of the date. */
    method IsTaskerTimeFree(tasker: int, date: int, range: TimeRange) returns (free: bool)
      ensures free <==> TaskerTimeFree(Snapshot(), tasker, date, range)
    {
      var active := set id | id in bookings && Occupies(bookings[id], tasker, date);
      while exists id :: id in active
        invariant forall id :: id in active ==> id in bookings && Occupies(bookings[id], tasker, date)
        invariant forall id :: id in bookings && Occupies(bookings[id], tasker, date) && id !in active ==>
          !RangesOverlap(bookings[id].range, range)
        decreases active
      {
        var id :| id in active;
        if RangesOverlap(bookings[id].range, range) {
          return false;
        }
        active := active - {id};
      }
      return true;
    }

    /**
     * Books a listed slot that starts at the requested minute, or else a custom
     * time on a slot of its own. `wanted.pick` is settled by the search.
     */
    method Book(booking: int, customSlot: int, wanted: BookRequest) returns (r: Result<int, Error>, ghost step: Step)
      requires Valid() && booking !in bookings && customSlot !in slots
      modifies this
      ensures Valid() && history == old(history) + [step]
      ensures step.Book? && step.booking == booking && step.customSlot == customSlot
      ensures step.request == wanted.(pick := step.request.pick)
      ensures !wanted.viaRequest && ParseTimeToMinutes(wanted.time).Some? ==>
                var s, minute := old(Snapshot()), ParseTimeToMinutes(wanted.time).value;
                SomethingIsListedAt(s, wanted.tasker, wanted.date, minute) ==>
                  IsListedAt(s, step.request.pick, wanted.tasker, wanted.date, minute)
      ensures r.Success? <==> Attempt(old(Snapshot()), step, minimumBillableMinutes).Some?
      ensures r.Success? <==> MayBook(old(Snapshot()), step.request, minimumBillableMinutes)
      ensures r.Success? ==>
        && booking in bookings && bookings[booking].slot == r.value && bookings[booking].status == Pending
    {
      MatchesAreListed(Snapshot(), wanted.tasker, wanted.date, wanted.time);
      var found := None;
      if !wanted.viaRequest {
        found := FindSlotAt(wanted.tasker, wanted.date, wanted.time);
      }
      var request := wanted.(pick := if found.Some? then found.value else wanted.pick);
      step := Step.Book(booking, customSlot, request);
      BookedExactlyWhen(Snapshot(), booking, customSlot, request, minimumBillableMinutes);
      hide MayBook, IsListedAt, SomethingIsListedAt;
      Record(step);
      if wanted.customer == wanted.tasker {
        return Failure(Forbidden), step;
      }
      if wanted.date < Today(Snapshot()) {
        return Failure(BadRequest), step;
      }
      if !wanted.admitted || ParseTimeToMinutes(wanted.time).None? {
        return Failure(Conflict), step;
      }
      if found.None? && !wanted.viaRequest && !wanted.allowCustomTime {
        return Failure(Conflict), step;
      }
      var range := if found.Some? then slots[found.value].range else CustomRange(wanted.time, minimumBillableMinutes);
      if IsPastSlotStart(Snapshot(), wanted.date, range.startTime) {
        return Failure(Conflict), step;
      }
      var free := IsTaskerTimeFree(wanted.tasker, wanted.date, range);
      if !free {
        return Failure(Conflict), step;
      }
      var availability := customSlot;
      if found.Some? {
        availability := found.value;
        var _ := ClaimSlot(availability);
      } else {
        slots := slots[customSlot := Slot(wanted.tasker, wanted.date, range, true, true)];
      }
      bookings := bookings[booking := Booking(wanted.customer, wanted.tasker, availability, wanted.date, range, Pending,
                                              found.None?, None, false, false, false)];
      return Success(availability), step;
    }

    /** Cancels a booking and gives its slot back. */
    method Release(booking: int)
      requires booking in bookings
      modifies this`slots, this`bookings
      ensures Snapshot() == Released(old(Snapshot()), booking)
      ensures bookings == old(bookings)[booking := old(bookings)[booking].(status := Cancelled)]
      ensures var slot := old(bookings)[booking].slot;
              slots == if slot in old(slots) then old(slots)[slot := old(slots)[slot].(isBooked := false)]
                       else old(slots)
    {
      ReleaseSlot(bookings[booking].slot);
      bookings := bookings[booking := bookings[booking].(status := Cancelled)];
    }

    method CancelCustomer(customer: int, booking: int) returns (r: Result<(), Error>)
      requires Valid()
      modifies this
      ensures Valid() && history == old(history) + [Step.CancelCustomer(customer, booking)]
      ensures r.Success? <==> Attempt(old(Snapshot()), Step.CancelCustomer(customer, booking),
                                      minimumBillableMinutes).Some?
      ensures r.Success? <==> BeforeWork(old(Snapshot()), booking) && old(bookings)[booking].customer == customer
      ensures r.Success? ==> booking in bookings && bookings[booking].status == Cancelled
    {
      CancelledExactlyWhen(Snapshot(), Step.CancelCustomer(customer, booking), minimumBillableMinutes);
      Record(Step.CancelCustomer(customer, booking));
      if booking !in bookings || bookings[booking].customer != customer {
        return Failure(NotFound);
      }
      if bookings[booking].status in {InProgress, AwaitingApproval, Completed, Cancelled} {
        return Failure(Conflict);
      }
      Release(booking);
      return Success(());
    }

    method CancelTasker(tasker: int, booking: int) returns (r: Result<(), Error>)
      requires Valid()
      modifies this
      ensures Valid() && history == old(history) + [Step.CancelTasker(tasker, booking)]
      ensures r.Success? <==> BeforeWork(old(Snapshot()), booking) && old(bookings)[booking].tasker == tasker
      ensures r.Success? ==> booking in bookings && bookings[booking].status == Cancelled
    {
      CancelledExactlyWhen(Snapshot(), Step.CancelTasker(tasker, booking), minimumBillableMinutes);
      Record(Step.CancelTasker(tasker, booking));
      if booking !in bookings || bookings[booking].tasker != tasker {
        return Failure(NotFound);
      }
      if bookings[booking].status in {InProgress, AwaitingApproval, Completed, Cancelled} {
        return Failure(Conflict);
      }
      Release(booking);
      return Success(());
    }

    /** By an administrator: not under an active dispute, and not once the payment is settled. */
    method CancelAdmin(booking: int) returns (r: Result<(), Error>)
      requires Valid()
      modifies this
      ensures Valid() && history == old(history) + [Step.CancelAdmin(booking)]
      ensures r.Success? <==>
        BeforeWork(old(Snapshot()), booking) && !old(bookings)[booking].disputed && !old(bookings)[booking].settled
      ensures r.Success? ==> booking in bookings && bookings[booking].status == Cancelled
    {
      CancelledExactlyWhen(Snapshot(), Step.CancelAdmin(booking), minimumBillableMinutes);
      Record(Step.CancelAdmin(booking));
      if booking !in bookings {
        return Failure(NotFound);
      }
      if bookings[booking].disputed || bookings[booking].settled
         || bookings[booking].status !in {Pending, AwaitingPayment, Confirmed, EnRoute, Arrived} {
        return Failure(Conflict);
      }
      Release(booking);
      return Success(());
    }

    method ExpireOnePendingBooking(booking: int) returns (expired: bool)
      requires Valid()
      modifies this
      ensures Valid() && history == old(history) + [ExpirePending(booking)]
      ensures expired <==> Attempt(old(Snapshot()), ExpirePending(booking), minimumBillableMinutes).Some?
      ensures expired <==> booking in old(bookings) && old(bookings)[booking].status == Pending
      ensures expired ==> booking in bookings && bookings[booking].status == Cancelled
    {
      Record(ExpirePending(booking));
      if booking !in bookings || bookings[booking].status != Pending {
        return false;
      }
      Release(booking);
      return true;
    }

    method ExpireOneAwaitingPaymentBooking(booking: int) returns (expired: bool)
      requires Valid()
      modifies this
      ensures Valid() && history == old(history) + [ExpireAwaitingPayment(booking)]
      ensures expired <==> Attempt(old(Snapshot()), ExpireAwaitingPayment(booking), minimumBillableMinutes).Some?
      ensures expired <==>
        && booking in old(bookings) && old(bookings)[booking].status == AwaitingPayment
        && !old(bookings)[booking].captured && old(bookings)[booking].paymentDueAt.Some?
        && old(bookings)[booking].paymentDueAt.value <= now
      ensures expired ==> booking in bookings && bookings[booking].status == Cancelled
    {
      Record(ExpireAwaitingPayment(booking));
      if booking !in bookings || bookings[booking].status != AwaitingPayment || bookings[booking].captured {
        return false;
      }
      if bookings[booking].paymentDueAt.None? || bookings[booking].paymentDueAt.value > now {
        return false;
      }
      Release(booking);
      return true;
    }

    /** The part of a no-show dispute that touches the booking and its slot. */
    method CancelAfterNoShow(tasker: int, booking: int) returns (r: Result<(), Error>)
      requires Valid()
      modifies this
      ensures Valid() && history == old(history) + [FileNoShow(tasker, booking)]
      ensures r.Success? <==> Attempt(old(Snapshot()), FileNoShow(tasker, booking), minimumBillableMinutes).Some?
      ensures r.Success? <==>
        booking in old(bookings) && old(bookings)[booking].tasker == tasker && old(bookings)[booking].status == Arrived
      ensures r.Success? ==> booking in bookings && bookings[booking].status == Cancelled
    {
      Record(FileNoShow(tasker, booking));
      if booking !in bookings || bookings[booking].tasker != tasker {
        return Failure(NotFound);
      }
      if bookings[booking].status != Arrived {
        return Failure(Conflict);
      }
      Release(booking);
      return Success(());
    }

    /** By an administrator: the slot is opened and left with the booking, whoever its tasker was. */
    method Reassign(booking: int, newTasker: int, approved: bool) returns (r: Result<(), Error>)
      requires Valid()
      modifies this
      ensures Valid() && history == old(history) + [Step.Reassign(booking, newTasker, approved)]
      ensures r.Success? <==> MayReassign(old(Snapshot()), booking, newTasker, approved)
      ensures r.Success? <==>
        && approved && booking in old(bookings) && !old(bookings)[booking].disputed && !old(bookings)[booking].settled
        && old(bookings)[booking].tasker != newTasker
        && (old(bookings)[booking].status == Pending || old(bookings)[booking].status == Confirmed
            || old(bookings)[booking].status == EnRoute || old(bookings)[booking].status == Arrived)
      ensures r.Success? ==>
        && booking in bookings && bookings[booking].tasker == newTasker && bookings[booking].status == Pending
        && bookings[booking].slot == old(bookings)[booking].slot
        && (bookings[booking].slot in slots ==> OpenWhileHeld(Snapshot(), booking, bookings[booking].slot))
    {
      Record(Step.Reassign(booking, newTasker, approved));
      if booking !in bookings {
        return Failure(NotFound);
      }
      if bookings[booking].disputed || bookings[booking].status !in {Pending, Confirmed, EnRoute, Arrived}
         || bookings[booking].settled || newTasker == bookings[booking].tasker || !approved {
        return Failure(Conflict);
      }
      bookings := bookings[booking := bookings[booking].(tasker := newTasker, status := Pending)];
      ReleaseSlot(bookings[booking].slot);
      return Success(());
    }

    /** Claims the new slot, gives back the old one and points the booking at its new place. */
    method MoveTo(booking: int, date: int, slot: int)
      requires booking in bookings && slot in slots && !slots[slot].isBooked
      modifies this`slots, this`bookings
      ensures slots == (var claimed := old(slots)[slot := old(slots)[slot].(isBooked := true)];
                        var former := old(bookings)[booking].slot;
                        if former in claimed then claimed[former := claimed[former].(isBooked := false)] else claimed)
      ensures bookings == old(bookings)[booking := old(bookings)[booking].(slot := slot, date := date,
                range := old(slots)[slot].range, status := Pending, isCustomTime := false)]
    {
      var range := slots[slot].range;
      var _ := ClaimSlot(slot);
      ReleaseSlot(bookings[booking].slot);
      bookings := bookings[booking := bookings[booking].(slot := slot, date := date, range := range, status := Pending,
                                                         isCustomTime := false)];
    }

    /** The slot for a move: open, at the requested minute, and not past. */
    method FindTarget(booking: int, date: int, time: string) returns (found: Option<int>)
      requires booking in bookings
      ensures found.Some? ==> Usable(Snapshot(), bookings[booking].tasker, date, time, found.value)
                              && !slots[found.value].isBooked
      ensures found.None? ==> forall pick :: !Usable(Snapshot(), bookings[booking].tasker, date, time, pick)
    {
      var at := FindSlotAt(bookings[booking].tasker, date, time);
      if at.None? || IsPastSlotStart(Snapshot(), date, slots[at.value].range.startTime) {
        SameMinuteSamePast(Snapshot(), bookings[booking].tasker, date, time);
        return None;
      }
      return at;
    }

    method Reschedule(customer: int, booking: int, date: int, time: string) returns (r: Result<int, Error>)
      requires Valid()
      modifies this
      ensures Valid() && (r.Failure? ==> history == old(history) && Snapshot() == old(Snapshot()))
      ensures r.Success? ==> history == old(history) + [Step.Reschedule(Move(customer, booking, date, time, r.value))]
      ensures r.Failure? <==> forall pick ::
                Rescheduled(old(Snapshot()), Move(customer, booking, date, time, pick)).None?
      ensures r.Success? <==>
        && booking in old(bookings) && old(bookings)[booking].customer == customer
        && exists slot :: MayMoveTo(old(Snapshot()), booking, date, time, slot)
      ensures r.Success? ==>
        && MayMoveTo(old(Snapshot()), booking, date, time, r.value)
        && booking in bookings && bookings[booking].slot == r.value && bookings[booking].status == Pending
    {
      SomeMoveExactlyWhen(Snapshot(), customer, booking, date, time);
      hide Usable, MayMoveTo;
      if date < Today(Snapshot()) {
        return Failure(BadRequest);
      }
      if booking !in bookings || bookings[booking].customer != customer {
        return Failure(NotFound);
      }
      if bookings[booking].status !in {Pending, Confirmed} {
        return Failure(Conflict);
      }
      var target := FindTarget(booking, date, time);
      if target.None? {
        return Failure(Conflict);
      }
      ghost var m := Move(customer, booking, date, time, target.value);
      RescheduledExactlyWhen(Snapshot(), m);
      assert Rescheduled(Snapshot(), m).Some?;
      Record(Step.Reschedule(m));
      MoveTo(booking, date, target.value);
      return Success(target.value);
    }

    method CreateRescheduleProposal(tasker: int, booking: int, proposal: int, date: int, time: string)
      returns (r: Result<int, Error>)
      requires Valid() && proposal !in proposals
      modifies this
      ensures Valid() && (r.Failure? ==> history == old(history) && Snapshot() == old(Snapshot()))
      ensures r.Success? ==> history == old(history) + [Propose(tasker, booking, proposal, date, time, r.value)]
      ensures r.Failure? <==> forall pick ::
                Proposed(old(Snapshot()), tasker, booking, proposal, date, time, pick).None?
      ensures r.Success? <==>
        && booking in old(bookings) && old(bookings)[booking].tasker == tasker
        && (exists slot :: MayMoveTo(old(Snapshot()), booking, date, time, slot))
        && (forall p :: p in old(proposals) && old(proposals)[p].booking == booking ==>
              old(proposals)[p].answer != Open)
      ensures r.Success? ==>
        && MayMoveTo(old(Snapshot()), booking, date, time, r.value)
        && slots == old(slots) && bookings == old(bookings)
        && proposals == old(proposals)[proposal :=
             Proposal(booking, date, old(slots)[r.value].range.startTime, Open)]
    {
      forall slot {
        ProposedExactlyWhen(Snapshot(), tasker, booking, proposal, date, time, slot);
      }
      hide Usable, HasOpenProposal, MayMoveTo, ParseTimeToMinutes;
      if date < Today(Snapshot()) {
        return Failure(BadRequest);
      }
      if booking !in bookings || bookings[booking].tasker != tasker {
        return Failure(NotFound);
      }
      if bookings[booking].status !in {Pending, Confirmed} || HasOpenProposal(Snapshot(), booking) {
        return Failure(Conflict);
      }
      var target := FindTarget(booking, date, time);
      if target.None? {
        return Failure(Conflict);
      }
      Record(Propose(tasker, booking, proposal, date, time, target.value));
      proposals := proposals[proposal := Proposal(booking, date, slots[target.value].range.startTime, Open)];
      return Success(target.value);
    }

    method RespondRescheduleProposal(customer: int, booking: int, proposal: int, accept: bool)
      returns (r: Result<int, Error>)
      requires Valid()
      modifies this
      ensures Valid() && (r.Failure? ==> history == old(history) && Snapshot() == old(Snapshot()))
      ensures r.Success? ==> history == old(history) + [Respond(proposal, accept, customer, r.value)]
      ensures r.Failure? <==>
        || (proposal in old(proposals) ==> old(proposals)[proposal].booking != booking)
        || forall pick :: Responded(old(Snapshot()), proposal, accept, customer, pick).None?
      ensures r.Success? <==>
        && booking in old(bookings) && old(bookings)[booking].customer == customer
        && (old(bookings)[booking].status == Pending || old(bookings)[booking].status == Confirmed)
        && proposal in old(proposals) && old(proposals)[proposal].booking == booking
        && old(proposals)[proposal].answer == Open
        && (accept ==> exists slot :: MayAcceptInto(old(Snapshot()), old(proposals)[proposal], slot))
    {
      forall slot {
        RespondedExactlyWhen(Snapshot(), proposal, accept, customer, slot);
      }
      hide Usable, MayAcceptInto;
      if booking !in bookings || bookings[booking].customer != customer {
        return Failure(NotFound);
      }
      if proposal !in proposals || proposals[proposal].booking != booking {
        return Failure(NotFound);
      }
      if proposals[proposal].answer != Open || bookings[booking].status !in {Pending, Confirmed} {
        return Failure(Conflict);
      }
      var p := proposals[proposal];
      if !accept {
        assert Responded(Snapshot(), proposal, accept, customer, 0).Some?;
        Record(Respond(proposal, accept, customer, 0));
        proposals := proposals[proposal := p.(answer := Rejected)];
        return Success(0);
      }
      var target := FindTarget(booking, p.date, p.time);
      if target.None? {
        return Failure(Conflict);
      }
      assert Responded(Snapshot(), proposal, accept, customer, target.value).Some?;
      Record(Respond(proposal, accept, customer, target.value));
      MoveTo(booking, p.date, target.value);
      proposals := proposals[proposal := p.(answer := Accepted)];
      return Success(target.value);
    }
  }

  /** Slots that start at the same minute have all elapsed or none has. */
  lemma SameMinuteSamePast(s: State, tasker: int, date: int, time: string)
    ensures forall a, b :: a in Matches(s, tasker, date, time) && b in Matches(s, tasker, date, time) ==>
      (IsPastSlotStart(s, date, s.slots[a].range.startTime) <==> IsPastSlotStart(s, date, s.slots[b].range.startTime))
  {
  }
}
