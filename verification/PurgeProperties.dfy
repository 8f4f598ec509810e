/** What the purge promises: balances, references, and what happens to other people's rows. */
module PurgeProperties {
  import opened Common
  import opened AccountPurge

  // ---- Conservation ----

  /** How far a balance is from the sum of its ledger. */
  function Gap(balances: map<int, Balance>, ledger: seq<Entry>, u: int): Balance
    requires u in balances
  {
    Minus(balances[u], Total(ledger, u))
  }

  predicate Balanced(balances: map<int, Balance>, ledger: seq<Entry>) {
    forall u :: u in balances ==> Gap(balances, ledger, u) == ZERO
  }

  predicate AllBalanced(t: Tables) {
    && Balanced(t.balances.customer, t.ledgers.customer)
    && Balanced(t.balances.tasker, t.ledgers.tasker)
    && Balanced(t.balances.platform, t.ledgers.platform)
  }

  lemma TakingBackKeepsGap(balances: map<int, Balance>, ledger: seq<Entry>, s: Selection, u: int)
    requires u in balances
    ensures Gap(TakenBack(balances, Removed(ledger, s)), Kept(ledger, s), u) == Gap(balances, ledger, u)
  {
    hide Kept, Removed, Total;
    TotalSplits(ledger, s, u);
  }

  predicate SameGap(before: map<int, Balance>, ledger: seq<Entry>, after: map<int, Balance>, left: seq<Entry>, u: int) {
    u in after ==> u in before && Gap(after, left, u) == Gap(before, ledger, u)
  }

  /** No purge moves a surviving balance relative to its surviving ledger, whether or not the two agreed before. */
  lemma PurgeKeepsEveryGap(t: Tables, user: int, role: Role, u: int)
    ensures var after := Purged(t, user, role);
            && SameGap(t.balances.customer, t.ledgers.customer, after.balances.customer, after.ledgers.customer, u)
            && SameGap(t.balances.tasker, t.ledgers.tasker, after.balances.tasker, after.ledgers.tasker, u)
            && SameGap(t.balances.platform, t.ledgers.platform, after.balances.platform, after.ledgers.platform, u)
  {
    var d := Collect(t, user, role);
    hide Kept, Removed, Total, Collect, ProgrammeAfter, RecordsAfter, WorkAfter, OwnAfter;
    if u in t.balances.customer {
      TakingBackKeepsGap(t.balances.customer, t.ledgers.customer, CustomerEntries(d, user, role), u);
    }
    if u in t.balances.tasker {
      TakingBackKeepsGap(t.balances.tasker, t.ledgers.tasker, TaskerEntries(d, user, role), u);
    }
    if u in t.balances.platform {
      TakingBackKeepsGap(t.balances.platform, t.ledgers.platform, PlatformEntries(d, user, role), u);
    }
  }

  /** Balances that were the sums of their ledgers still are, and only the user's own rows are gone. */
  lemma PurgeConserves(t: Tables, user: int, role: Role)
    requires AllBalanced(t)
    ensures AllBalanced(Purged(t, user, role))
    ensures var after := Purged(t, user, role).balances;
            && after.customer.Keys == t.balances.customer.Keys - (if role.Customer? then {user} else {})
            && after.tasker.Keys == t.balances.tasker.Keys - (if role.Tasker? then {user} else {})
            && after.platform.Keys == t.balances.platform.Keys - (if role.Tasker? then {user} else {})
  {
    var after := Purged(t, user, role);
    forall u | u in after.balances.customer ensures Gap(after.balances.customer, after.ledgers.customer, u) == ZERO {
      PurgeKeepsEveryGap(t, user, role, u);
    }
    forall u | u in after.balances.tasker ensures Gap(after.balances.tasker, after.ledgers.tasker, u) == ZERO {
      PurgeKeepsEveryGap(t, user, role, u);
    }
    forall u | u in after.balances.platform ensures Gap(after.balances.platform, after.ledgers.platform, u) == ZERO {
      PurgeKeepsEveryGap(t, user, role, u);
    }
  }

  // ---- References ----

  predicate RefersInto<T>(ref: Option<int>, table: map<int, T>) {
    ref.None? || ref.value in table
  }

  /** Every reference of every ledger entry resolves. */
  predicate LedgersResolve(t: Tables) {
    && (forall e :: e in t.ledgers.customer ==>
          && RefersInto(e.booking, t.work.bookings) && RefersInto(e.reward, t.programme.rewards)
          && RefersInto(e.withdrawal, t.own.customerWithdrawals))
    && (forall e :: e in t.ledgers.tasker ==>
          && RefersInto(e.booking, t.work.bookings) && RefersInto(e.reward, t.programme.rewards)
          && RefersInto(e.earning, t.programme.earnings) && RefersInto(e.withdrawal, t.own.taskerWithdrawals))
    && (forall e :: e in t.ledgers.platform ==>
          && RefersInto(e.booking, t.work.bookings) && RefersInto(e.earning, t.programme.earnings)
          && RefersInto(e.receivable, t.programme.receivables))
  }

  predicate ProgrammeResolves(t: Tables) {
    && (forall r :: r in t.programme.rewards ==>
          t.programme.rewards[r].booking in t.work.bookings && t.programme.rewards[r].referral in t.programme.referrals)
    && (forall r :: r in t.programme.referrals ==>
        RefersInto(t.programme.referrals[r].qualifyingBooking, t.work.bookings))
    && (forall e :: e in t.programme.earnings ==> t.programme.earnings[e].booking in t.work.bookings)
    && (forall r :: r in t.programme.receivables ==> t.programme.receivables[r].booking in t.work.bookings)
  }

  predicate RecordsResolve(t: Tables) {
    && (forall p :: p in t.records.payments ==> RefersInto(t.records.payments[p].booking, t.work.bookings))
    && (forall c :: c in t.records.complaints ==> t.records.complaints[c].booking in t.work.bookings)
    && (forall c :: c in t.records.cashRefunds ==> t.records.cashRefunds[c] in t.records.complaints)
    && (forall e :: e in t.records.evidence ==> t.records.evidence[e] in t.records.complaints)
    && (forall c :: c in t.records.chargebacks ==> RefersInto(t.records.chargebacks[c], t.work.bookings))
    && (forall p :: p in t.records.proofs ==> t.records.proofs[p] in t.work.bookings)
    && (forall v :: v in t.records.reviews ==> t.records.reviews[v] in t.work.bookings)
    && (forall c :: c in t.records.calls ==> t.records.calls[c].booking in t.work.bookings)
  }

  predicate WorkResolves(t: Tables) {
    && (forall b :: b in t.work.bookings ==> t.work.bookings[b].conversation in t.work.conversations)
    && (forall m :: m in t.work.messages ==>
          && t.work.messages[m].conversation in t.work.conversations
          && RefersInto(t.work.messages[m].booking, t.work.bookings))
    && (forall x :: x in t.own.taskerWithdrawals ==> t.own.taskerWithdrawals[x].payoutMethod in t.own.payoutMethods)
  }

  /** No row points at a row that is not there. */
  predicate Resolves(t: Tables) {
    LedgersResolve(t) && ProgrammeResolves(t) && RecordsResolve(t) && WorkResolves(t)
  }

  lemma LedgersStillResolve(t: Tables, user: int, role: Role)
    requires Resolves(t) && ForeignBookingsUnused(t, user, role) && PayoutsUnshared(t, user, role)
    ensures LedgersResolve(Purged(t, user, role))
  {
    hide Kept, Removed, Total, BalancesReversed, WithoutUser, RecordsAfter, UnusedByRecords, UnusedByProgramme,
         RecordsResolve, ProgrammeResolves, WorkResolves;
    var d := Collect(t, user, role);
    LedgersAreCut(t.ledgers, d, user, role);
    CutLedger(t.ledgers.customer, CustomerEntries(d, user, role));
    CutLedger(t.ledgers.tasker, TaskerEntries(d, user, role));
    CutLedger(t.ledgers.platform, PlatformEntries(d, user, role));
  }

  lemma ProgrammeStillResolves(t: Tables, user: int, role: Role)
    requires Resolves(t) && ForeignBookingsUnused(t, user, role)
    ensures ProgrammeResolves(Purged(t, user, role))
  {
    hide LedgersAfter, BalancesReversed, WithoutUser, RecordsAfter, OwnAfter, UnusedByRecords, UnusedByLedgers,
         RecordsResolve, LedgersResolve, WorkResolves;
    NothingPointsAtDoomed(t, user, role);
  }

  lemma RecordsStillResolve(t: Tables, user: int, role: Role)
    requires Resolves(t) && ForeignBookingsUnused(t, user, role)
    ensures RecordsResolve(Purged(t, user, role))
  {
    hide LedgersAfter, BalancesReversed, WithoutUser, ProgrammeAfter, OwnAfter, UnusedByProgramme, UnusedByLedgers,
         ProgrammeResolves, LedgersResolve, WorkResolves, Collect;
  }

  lemma WorkStillResolves(t: Tables, user: int, role: Role)
    requires Resolves(t) && PayoutsUnshared(t, user, role)
    ensures WorkResolves(Purged(t, user, role))
  {
    hide LedgersAfter, BalancesReversed, WithoutUser, ProgrammeAfter, RecordsAfter, ProgrammeResolves, LedgersResolve,
         RecordsResolve;
  }

  /** A purge that goes through leaves no dangling reference anywhere. */
  lemma PurgeKeepsReferences(t: Tables, user: int, role: Role)
    requires Resolves(t) && ForeignBookingsUnused(t, user, role) && PayoutsUnshared(t, user, role)
    ensures Resolves(Purged(t, user, role))
  {
    hide *;
    LedgersStillResolve(t, user, role);
    ProgrammeStillResolves(t, user, role);
    RecordsStillResolve(t, user, role);
    WorkStillResolves(t, user, role);
    AllResolve(Purged(t, user, role));
  }

  lemma AllResolve(t: Tables)
    requires LedgersResolve(t) && ProgrammeResolves(t) && RecordsResolve(t) && WorkResolves(t)
    ensures Resolves(t)
  {
  }

  // ---- Other people's bookings ----

  /** A booking shares its conversation's customer and tasker, as it does when it is created. */
  predicate Paired(w: Work) {
    forall b :: b in w.bookings && w.bookings[b].conversation in w.conversations ==>
      var c := w.conversations[w.bookings[b].conversation];
      c.customer == w.bookings[b].customer && c.tasker == w.bookings[b].tasker
  }

  /** Money leaves an owner by the owner's own withdrawals, paid to the owner's own payout methods. */
  predicate OwnPayouts(t: Tables) {
    && (forall e :: e in t.ledgers.customer && e.withdrawal.Some? && e.withdrawal.value in t.own.customerWithdrawals ==>
          t.own.customerWithdrawals[e.withdrawal.value] == e.owner)
    && (forall e :: e in t.ledgers.tasker && e.withdrawal.Some? && e.withdrawal.value in t.own.taskerWithdrawals ==>
          t.own.taskerWithdrawals[e.withdrawal.value].tasker == e.owner)
    && (forall x :: x in t.own.taskerWithdrawals && t.own.taskerWithdrawals[x].payoutMethod in t.own.payoutMethods ==>
          t.own.payoutMethods[t.own.taskerWithdrawals[x].payoutMethod] == t.own.taskerWithdrawals[x].tasker)
  }

  /**
   * Nobody's purge ever takes another person's booking along exactly when every
   * booking belongs to the pair of its conversation.
   */
  lemma OnlyMispairedBookingsAreForeign(t: Tables)
    requires -1 !in t.work.bookings
    ensures Paired(t.work) <==>
            forall user: int, role: Role :: Foreign(t.work, Collect(t, user, role)) == {}
  {
    if !Paired(t.work) {
      var b :| b in t.work.bookings && t.work.bookings[b].conversation in t.work.conversations
               && (var c := t.work.conversations[t.work.bookings[b].conversation];
                   c.customer != t.work.bookings[b].customer || c.tasker != t.work.bookings[b].tasker);
      var c := t.work.conversations[t.work.bookings[b].conversation];
      var role := if c.customer != t.work.bookings[b].customer then Customer else Tasker;
      assert b in Foreign(t.work, Collect(t, PartyOf(c, role), role));
    } else {
      forall user: int, role: Role ensures Foreign(t.work, Collect(t, user, role)) == {} {
        PairedHasNoForeign(t, user, role);
      }
    }
  }

  lemma PairedHasNoForeign(t: Tables, user: int, role: Role)
    requires Paired(t.work) && -1 !in t.work.bookings
    ensures Foreign(t.work, Collect(t, user, role)) == {}
  {
    var d := Collect(t, user, role);
    forall b | b in t.work.bookings && t.work.bookings[b].conversation in d.conversations ensures b in d.bookings {
      var c := t.work.conversations[t.work.bookings[b].conversation];
      assert PartyOf(c, role) == user;
      assert b in set x | x in t.work.bookings && SideOf(t.work.bookings[x], role) == user;
    }
  }

  /** On paired bookings and own payouts no foreign key ever stops a purge, and it removes the user's bookings only. */
  lemma PairedPurgeGoesThrough(t: Tables, user: int, role: Role)
    requires Paired(t.work) && OwnPayouts(t) && -1 !in t.work.bookings
    ensures ForeignBookingsUnused(t, user, role) && PayoutsUnshared(t, user, role)
    ensures forall b :: b in Purged(t, user, role).work.bookings <==>
              b in t.work.bookings && SideOf(t.work.bookings[b], role) != user
    ensures Paired(Purged(t, user, role).work)
  {
    PairedHasNoForeign(t, user, role);
    NothingToUse(t, user, role);
    PayoutsAreUnshared(t, user, role);
  }

  lemma NothingToUse(t: Tables, user: int, role: Role)
    requires Foreign(t.work, Collect(t, user, role)) == {}
    ensures ForeignBookingsUnused(t, user, role)
  {
  }

  lemma PayoutsAreUnshared(t: Tables, user: int, role: Role)
    requires OwnPayouts(t)
    ensures PayoutsUnshared(t, user, role)
  {
    var d := Collect(t, user, role);
    CutLedger(t.ledgers.customer, CustomerEntries(d, user, role));
    CutLedger(t.ledgers.tasker, TaskerEntries(d, user, role));
  }

  // ---- Handing a booking to another tasker ----

  /** Reassignment changes the tasker of a booking and leaves it in the conversation it was made in. */
  function Reassigned(t: Tables, booking: int, tasker: int): Tables
    requires booking in t.work.bookings
  {
    t.(work := t.work.(bookings := t.work.bookings[booking := t.work.bookings[booking].(tasker := tasker)]))
  }

  /**
   * After a booking was handed over, the purge of its previous tasker reaches for
   * that one booking of somebody else: it goes through exactly when nothing that
   * stays refers to the booking, and then the booking is gone.
   */
  lemma ReassignedBookingFallsWithItsOldTasker(t: Tables, booking: int, tasker: int)
    requires Resolves(t) && Paired(t.work) && OwnPayouts(t) && -1 !in t.work.bookings
    requires booking in t.work.bookings && tasker != t.work.bookings[booking].tasker
    ensures var after := Reassigned(t, booking, tasker); var previous := t.work.bookings[booking].tasker;
            && Foreign(after.work, Collect(after, previous, Tasker)) == {booking}
            && PayoutsUnshared(after, previous, Tasker)
            && after.work.bookings[booking].tasker == tasker
            && booking !in Purged(after, previous, Tasker).work.bookings
  {
    var after, previous := Reassigned(t, booking, tasker), t.work.bookings[booking].tasker;
    OnlyTheHandedOver(t, booking, tasker);
    hide *;
    OwnPayoutsOfReassigned(t, booking, tasker);
    PayoutsAreUnshared(after, previous, Tasker);
    ForeignAreGone(after, previous, Tasker);
  }

  lemma ForeignAreGone(t: Tables, user: int, role: Role)
    ensures forall b :: b in Foreign(t.work, Collect(t, user, role)) ==> b !in Purged(t, user, role).work.bookings
  {
  }

  lemma OwnPayoutsOfReassigned(t: Tables, booking: int, tasker: int)
    requires OwnPayouts(t) && booking in t.work.bookings
    ensures OwnPayouts(Reassigned(t, booking, tasker))
  {
  }

  lemma OnlyTheHandedOver(t: Tables, booking: int, tasker: int)
    requires WorkResolves(t) && Paired(t.work) && -1 !in t.work.bookings
    requires booking in t.work.bookings && tasker != t.work.bookings[booking].tasker
    ensures var after := Reassigned(t, booking, tasker); var previous := t.work.bookings[booking].tasker;
            && Foreign(after.work, Collect(after, previous, Tasker)) == {booking}
            && after.work.bookings[booking].tasker == tasker
  {
    var after, previous := Reassigned(t, booking, tasker), t.work.bookings[booking].tasker;
    var d := Collect(after, previous, Tasker);
    assert t.work.bookings[booking].conversation in d.conversations;
    assert forall b :: b in Foreign(after.work, d) ==> b == booking;
  }

  // ---- Stored files ----

  /** What is handed over for removal from storage. */
  datatype Assets = Assets(bookings: set<int>, proofs: set<int>, evidence: set<int>, messages: set<int>)

  function AssetSources(t: Tables, user: int, role: Role): Assets {
    var d := Collect(t, user, role);
    Assets(
      d.bookings * t.work.bookings.Keys,
      set p | p in t.records.proofs && t.records.proofs[p] in d.bookings,
      set e | e in t.records.evidence && t.records.evidence[e] in ComplaintsOn(t.records, d.bookings),
      set m | m in t.work.messages && t.work.messages[m].hasAttachments
              && (PointsInto(t.work.messages[m].booking, d.bookings)
                  || t.work.messages[m].conversation in d.conversations))
  }

  /** A message about a booking is written in that booking's conversation. */
  predicate MessagesInPlace(w: Work) {
    forall m :: m in w.messages && w.messages[m].booking.Some? && w.messages[m].booking.value in w.bookings ==>
      w.messages[m].conversation == w.bookings[w.messages[m].booking.value].conversation
  }

  /**
   * Exactly the files of rows that disappear are handed over: none is lost to storage
   * and none is taken from a row that stays.
   */
  lemma FilesOfDeletedRowsOnly(t: Tables, user: int, role: Role)
    requires Resolves(t) && Paired(t.work) && MessagesInPlace(t.work) && -1 !in t.work.bookings
    ensures var assets := AssetSources(t, user, role); var after := Purged(t, user, role);
            && assets.bookings == t.work.bookings.Keys - after.work.bookings.Keys
            && assets.proofs == t.records.proofs.Keys - after.records.proofs.Keys
            && assets.evidence == t.records.evidence.Keys - after.records.evidence.Keys
            && assets.messages == set m | m in t.work.messages && t.work.messages[m].hasAttachments
                                          && m !in after.work.messages
  {
    hide LedgersAfter, BalancesReversed, WithoutUser, ProgrammeAfter, OwnAfter, LedgersResolve, ProgrammeResolves;
    PairedHasNoForeign(t, user, role);
    MessagesOfDoomedBookings(t, user, role);
    var assets, after := AssetSources(t, user, role), Purged(t, user, role);
    assert assets.bookings == t.work.bookings.Keys - after.work.bookings.Keys;
    assert assets.proofs == t.records.proofs.Keys - after.records.proofs.Keys;
    assert assets.evidence == t.records.evidence.Keys - after.records.evidence.Keys;
    assert forall m :: m in assets.messages <==>
      m in t.work.messages && t.work.messages[m].hasAttachments && m !in after.work.messages;
  }

  lemma MessagesOfDoomedBookings(t: Tables, user: int, role: Role)
    requires Resolves(t) && Paired(t.work) && MessagesInPlace(t.work) && -1 !in t.work.bookings
    ensures var d := Collect(t, user, role);
            forall m :: m in t.work.messages && PointsInto(t.work.messages[m].booking, d.bookings) ==>
              t.work.messages[m].conversation in d.conversations
  {
    hide LedgersResolve, ProgrammeResolves, RecordsResolve;
    var d := Collect(t, user, role);
    forall m | m in t.work.messages && PointsInto(t.work.messages[m].booking, d.bookings)
      ensures t.work.messages[m].conversation in d.conversations
    {
      var id := t.work.messages[m].booking.value;
      assert id in t.work.bookings && SideOf(t.work.bookings[id], role) == user;
      assert t.work.bookings[id].conversation in t.work.conversations;
      assert t.work.messages[m].conversation == t.work.bookings[id].conversation;
      assert PartyOf(t.work.conversations[t.work.messages[m].conversation], role) == user;
    }
  }
}
