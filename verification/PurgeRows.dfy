/**
 * Which rows a purge takes, told row by row from the fields of the tables it
 * starts from. Nothing here uses the lists that the purge collects.
 */
module PurgeRows {
  import opened Common
  import opened AccountPurge
  import opened PurgeProperties

  // ---- Rows that are the user's ----

  predicate IsTheirs(t: Tables, booking: int, user: int, role: Role) {
    && booking in t.work.bookings
    && (match role
        case Customer => t.work.bookings[booking].customer == user
        case Tasker => t.work.bookings[booking].tasker == user)
  }

  predicate IsTheirConversation(t: Tables, conversation: int, user: int, role: Role) {
    && conversation in t.work.conversations
    && (match role
        case Customer => t.work.conversations[conversation].customer == user
        case Tasker => t.work.conversations[conversation].tasker == user)
  }

  /** A booking of somebody else, kept in a conversation of the user. */
  predicate IsForeign(t: Tables, booking: int, user: int, role: Role) {
    && booking in t.work.bookings && !IsTheirs(t, booking, user, role)
    && IsTheirConversation(t, t.work.bookings[booking].conversation, user, role)
  }

  predicate ReferralGoes(r: Referral, user: int, role: Role) {
    r.program == role && (r.referrer == user || r.referred == user)
  }

  predicate RewardGoes(t: Tables, r: Reward, user: int, role: Role) {
    || IsTheirs(t, r.booking, user, role)
    || (r.recipient == user && r.recipientRole == role)
    || (r.referral in t.programme.referrals && ReferralGoes(t.programme.referrals[r.referral], user, role))
  }

  predicate EarningGoes(t: Tables, e: Earning, user: int, role: Role) {
    IsTheirs(t, e.booking, user, role) || (role == Tasker && e.tasker == user)
  }

  predicate ReceivableGoes(t: Tables, r: Receivable, user: int, role: Role) {
    IsTheirs(t, r.booking, user, role) || (role == Tasker && r.tasker == user)
  }

  predicate OnTheirBooking(t: Tables, e: Entry, user: int, role: Role) {
    e.booking.Some? && IsTheirs(t, e.booking.value, user, role)
  }

  predicate OnGoneReward(t: Tables, e: Entry, user: int, role: Role) {
    && e.reward.Some? && e.reward.value in t.programme.rewards
    && RewardGoes(t, t.programme.rewards[e.reward.value], user, role)
  }

  predicate OnGoneEarning(t: Tables, e: Entry, user: int, role: Role) {
    && e.earning.Some? && e.earning.value in t.programme.earnings
    && EarningGoes(t, t.programme.earnings[e.earning.value], user, role)
  }

  predicate OnGoneReceivable(t: Tables, e: Entry, user: int, role: Role) {
    && e.receivable.Some? && e.receivable.value in t.programme.receivables
    && ReceivableGoes(t, t.programme.receivables[e.receivable.value], user, role)
  }

  predicate CustomerEntryGoes(t: Tables, e: Entry, user: int, role: Role) {
    OnTheirBooking(t, e, user, role) || OnGoneReward(t, e, user, role) || (role == Customer && e.owner == user)
  }

  predicate TaskerEntryGoes(t: Tables, e: Entry, user: int, role: Role) {
    || OnTheirBooking(t, e, user, role) || OnGoneReward(t, e, user, role) || OnGoneEarning(t, e, user, role)
    || (role == Tasker && e.owner == user)
  }

  predicate PlatformEntryGoes(t: Tables, e: Entry, user: int, role: Role) {
    || OnTheirBooking(t, e, user, role) || OnGoneEarning(t, e, user, role) || OnGoneReceivable(t, e, user, role)
    || (role == Tasker && e.owner == user)
  }

  // ---- The collected lists hold exactly these rows ----

  lemma CollectedBookings(t: Tables, user: int, role: Role, booking: int)
    requires booking in t.work.bookings && -1 !in t.work.bookings
    ensures booking in Collect(t, user, role).bookings <==> IsTheirs(t, booking, user, role)
  {
    assert booking in (set b | b in t.work.bookings && SideOf(t.work.bookings[b], role) == user) <==>
           IsTheirs(t, booking, user, role);
  }

  lemma CollectedRewards(t: Tables, user: int, role: Role)
    requires ProgrammeResolves(t) && -1 !in t.work.bookings
    ensures var d := Collect(t, user, role);
            && (forall r :: r in d.referrals <==>
                  r in t.programme.referrals && ReferralGoes(t.programme.referrals[r], user, role))
            && (forall r :: r in d.rewards <==>
                  r in t.programme.rewards && RewardGoes(t, t.programme.rewards[r], user, role))
  {
    var p := t.programme;
    forall r | r in p.rewards {
      CollectedBookings(t, user, role, p.rewards[r].booking);
    }
  }

  lemma CollectedEarnings(t: Tables, user: int, role: Role)
    requires ProgrammeResolves(t) && -1 !in t.work.bookings
    ensures var d := Collect(t, user, role);
            && (forall e :: e in d.earnings <==>
                  e in t.programme.earnings && EarningGoes(t, t.programme.earnings[e], user, role))
            && (forall r :: r in d.receivables <==>
                  r in t.programme.receivables && ReceivableGoes(t, t.programme.receivables[r], user, role))
  {
    var p := t.programme;
    forall e | e in p.earnings {
      CollectedBookings(t, user, role, p.earnings[e].booking);
    }
    forall r | r in p.receivables {
      CollectedBookings(t, user, role, p.receivables[r].booking);
    }
  }

  lemma CollectedConversations(t: Tables, user: int, role: Role, conversation: int)
    ensures conversation in Collect(t, user, role).conversations <==> IsTheirConversation(t, conversation, user, role)
  {
  }

  lemma CollectedForeign(t: Tables, user: int, role: Role, booking: int)
    requires -1 !in t.work.bookings
    ensures booking in Foreign(t.work, Collect(t, user, role)) <==> IsForeign(t, booking, user, role)
  {
    if booking in t.work.bookings {
      CollectedBookings(t, user, role, booking);
      CollectedConversations(t, user, role, t.work.bookings[booking].conversation);
    }
  }

  // ---- Money and programme ----

  /**
   * Of referrals, rewards, earnings and receivables exactly those stay that are
   * not the user's in this role, unchanged; only a referral of other people that
   * qualified by one of the user's bookings loses that booking.
   */
  lemma ProgrammeRowsThatStay(t: Tables, user: int, role: Role)
    requires Resolves(t) && -1 !in t.work.bookings
    ensures var before, after := t.programme, Purged(t, user, role).programme;
            && (forall r :: r in after.referrals <==>
                  r in before.referrals && !ReferralGoes(before.referrals[r], user, role))
            && (forall r :: r in after.referrals ==>
                  after.referrals[r] == before.referrals[r].(qualifyingBooking :=
                    var b := before.referrals[r].qualifyingBooking;
                    if b.Some? && IsTheirs(t, b.value, user, role) then None else b))
            && after.rewards ==
               (map r | r in before.rewards && !RewardGoes(t, before.rewards[r], user, role) :: before.rewards[r])
            && after.earnings ==
               (map e | e in before.earnings && !EarningGoes(t, before.earnings[e], user, role) :: before.earnings[e])
            && after.receivables ==
               (map r | r in before.receivables && !ReceivableGoes(t, before.receivables[r], user, role)
                  :: before.receivables[r])
  {
    hide LedgersAfter, BalancesReversed, WithoutUser, RecordsAfter, WorkAfter, OwnAfter, Collect,
         LedgersResolve, RecordsResolve, WorkResolves, RewardGoes, EarningGoes, ReceivableGoes;
    CollectedRewards(t, user, role);
    CollectedEarnings(t, user, role);
    forall r | r in t.programme.referrals && t.programme.referrals[r].qualifyingBooking.Some? {
      CollectedBookings(t, user, role, t.programme.referrals[r].qualifyingBooking.value);
    }
    var d, before, after := Collect(t, user, role), t.programme, Purged(t, user, role).programme;
    assert forall r :: r in after.referrals <==> r in before.referrals && r !in d.referrals;
    assert after.rewards == before.rewards - d.rewards;
    assert forall r :: r in after.rewards <==> r in before.rewards && !RewardGoes(t, before.rewards[r], user, role);
    assert forall e :: e in after.earnings <==> e in before.earnings && !EarningGoes(t, before.earnings[e], user, role);
    assert forall r :: r in after.receivables <==>
      r in before.receivables && !ReceivableGoes(t, before.receivables[r], user, role);
  }

  lemma {:induction false} KeptCount(ledger: seq<Entry>, s: Selection, e: Entry)
    ensures multiset(Kept(ledger, s))[e] == if Selected(e, s) then 0 else multiset(ledger)[e]
  {
    hide Selected;
    if ledger != [] {
      KeptCount(ledger[1..], s, e);
      assert ledger == [ledger[0]] + ledger[1..];
    }
  }

  /** Every entry stays as often as it was there, or goes altogether. */
  ghost predicate Filtered(before: seq<Entry>, after: seq<Entry>, goes: Entry -> bool) {
    forall e :: multiset(after)[e] == if goes(e) then 0 else multiset(before)[e]
  }

  lemma KeptIsFiltered(ledger: seq<Entry>, s: Selection, goes: Entry -> bool)
    requires forall e :: e in ledger ==> (goes(e) <==> Selected(e, s))
    ensures Filtered(ledger, Kept(ledger, s), goes)
  {
    forall e ensures multiset(Kept(ledger, s))[e] == if goes(e) then 0 else multiset(ledger)[e] {
      KeptCount(ledger, s, e);
    }
  }

  lemma ReferenceIsCollected(t: Tables, user: int, role: Role, e: Entry)
    requires Resolves(t) && -1 !in t.work.bookings
    ensures var d := Collect(t, user, role);
            && (RefersInto(e.booking, t.work.bookings) ==>
                  (PointsInto(e.booking, d.bookings) <==> OnTheirBooking(t, e, user, role)))
            && (RefersInto(e.reward, t.programme.rewards) ==>
                  (PointsInto(e.reward, d.rewards) <==> OnGoneReward(t, e, user, role)))
            && (RefersInto(e.earning, t.programme.earnings) ==>
                  (PointsInto(e.earning, d.earnings) <==> OnGoneEarning(t, e, user, role)))
            && (RefersInto(e.receivable, t.programme.receivables) ==>
                  (PointsInto(e.receivable, d.receivables) <==> OnGoneReceivable(t, e, user, role)))
  {
    hide Collect, LedgersResolve, RecordsResolve, WorkResolves, ReferralGoes, IsTheirs;
    CollectedRewards(t, user, role);
    CollectedEarnings(t, user, role);
    if e.booking.Some? && e.booking.value in t.work.bookings {
      CollectedBookings(t, user, role, e.booking.value);
    }
    match e.reward {
      case Some(r) => assert r in Collect(t, user, role).rewards <==> OnGoneReward(t, e, user, role);
      case None =>
    }
    match e.earning {
      case Some(x) => assert x in Collect(t, user, role).earnings <==> OnGoneEarning(t, e, user, role);
      case None =>
    }
    match e.receivable {
      case Some(r) => assert r in Collect(t, user, role).receivables <==> OnGoneReceivable(t, e, user, role);
      case None =>
    }
  }

  /** Of the three ledgers exactly those entries go that are the user's in this role or on something of theirs. */
  lemma EntriesThatStay(t: Tables, user: int, role: Role)
    requires Resolves(t) && -1 !in t.work.bookings
    ensures var before, after := t.ledgers, Purged(t, user, role).ledgers;
            && Filtered(before.customer, after.customer, e => CustomerEntryGoes(t, e, user, role))
            && Filtered(before.tasker, after.tasker, e => TaskerEntryGoes(t, e, user, role))
            && Filtered(before.platform, after.platform, e => PlatformEntryGoes(t, e, user, role))
  {
    var d := Collect(t, user, role);
    LedgerSelections(t, user, role);
    hide Collect, BalancesReversed, WithoutUser, ProgrammeAfter, RecordsAfter, WorkAfter, OwnAfter, Kept, Selected,
         Resolves, Filtered, CustomerEntryGoes, TaskerEntryGoes, PlatformEntryGoes;
    KeptIsFiltered(t.ledgers.customer, CustomerEntries(d, user, role), e => CustomerEntryGoes(t, e, user, role));
    KeptIsFiltered(t.ledgers.tasker, TaskerEntries(d, user, role), e => TaskerEntryGoes(t, e, user, role));
    KeptIsFiltered(t.ledgers.platform, PlatformEntries(d, user, role), e => PlatformEntryGoes(t, e, user, role));
  }

  lemma LedgerSelections(t: Tables, user: int, role: Role)
    requires Resolves(t) && -1 !in t.work.bookings
    ensures var d := Collect(t, user, role);
            && (forall e :: e in t.ledgers.customer ==>
                  (CustomerEntryGoes(t, e, user, role) <==> Selected(e, CustomerEntries(d, user, role))))
            && (forall e :: e in t.ledgers.tasker ==>
                  (TaskerEntryGoes(t, e, user, role) <==> Selected(e, TaskerEntries(d, user, role))))
            && (forall e :: e in t.ledgers.platform ==>
                  (PlatformEntryGoes(t, e, user, role) <==> Selected(e, PlatformEntries(d, user, role))))
  {
    forall e {
      ReferenceIsCollected(t, user, role, e);
    }
    hide Collect, ProgrammeResolves, RecordsResolve, WorkResolves, OnTheirBooking, OnGoneReward, OnGoneEarning,
         OnGoneReceivable, PointsInto, RefersInto;
  }

  // ---- Balances ----

  lemma {:induction false} TotalOfSnoc(ledger: seq<Entry>, e: Entry, owner: int)
    ensures Total(ledger + [e], owner) == Plus(Total(ledger, owner), Share(e, owner))
  {
    if ledger != [] {
      var x, rest, longer := ledger[0], ledger[1..], ledger + [e];
      assert longer[1..] == rest + [e];
      TotalOfSnoc(rest, e, owner);
      PlusAssociates(Share(x, owner), Total(rest, owner), Share(e, owner));
      hide Share, Plus;
      TotalStep(longer, owner);
    }
  }

  lemma PlusAssociates(a: Balance, b: Balance, c: Balance)
    ensures Plus(a, Plus(b, c)) == Plus(Plus(a, b), c)
  {
  }

  /** The sum of a ledger is the sum of the owner's entries, in both columns. */
  lemma EveryEntryCounts(ledger: seq<Entry>, e: Entry, owner: int)
    ensures Total([], owner) == Balance(0, 0)
    ensures var before, after := Total(ledger, owner), Total(ledger + [e], owner);
            && after.available == before.available + (if e.owner == owner then e.delta.available else 0)
            && after.pending == before.pending + (if e.owner == owner then e.delta.pending else 0)
  {
    TotalOfSnoc(ledger, e, owner);
  }

  /** A balance that stays moves by exactly as much as its owner's ledger loses, in both columns. */
  predicate MovesWithLedger(before: Balance, ledger: seq<Entry>, after: Balance, left: seq<Entry>, u: int) {
    && after.available == before.available - (Total(ledger, u).available - Total(left, u).available)
    && after.pending == before.pending - (Total(ledger, u).pending - Total(left, u).pending)
  }

  lemma BalancesThatStay(t: Tables, user: int, role: Role, u: int)
    ensures var b, l, b', l' := t.balances, t.ledgers, Purged(t, user, role).balances, Purged(t, user, role).ledgers;
            && (u in b'.customer ==>
                  u in b.customer && MovesWithLedger(b.customer[u], l.customer, b'.customer[u], l'.customer, u))
            && (u in b'.tasker ==>
                  u in b.tasker && MovesWithLedger(b.tasker[u], l.tasker, b'.tasker[u], l'.tasker, u))
            && (u in b'.platform ==>
                  u in b.platform && MovesWithLedger(b.platform[u], l.platform, b'.platform[u], l'.platform, u))
  {
    var d := Collect(t, user, role);
    hide Collect, ProgrammeAfter, RecordsAfter, WorkAfter, OwnAfter, Kept, Removed, Total;
    TotalSplits(t.ledgers.customer, CustomerEntries(d, user, role), u);
    TotalSplits(t.ledgers.tasker, TaskerEntries(d, user, role), u);
    TotalSplits(t.ledgers.platform, PlatformEntries(d, user, role), u);
  }

  // ---- Bookings and what hangs on them ----

  predicate BookingGoes(t: Tables, booking: int, user: int, role: Role) {
    IsTheirs(t, booking, user, role) || IsForeign(t, booking, user, role)
  }

  /**
   * The user's bookings and conversations go, with the messages written in these
   * conversations and with other people's bookings kept in them; a message
   * elsewhere only loses a booking that is gone.
   */
  lemma WorkRowsThatStay(t: Tables, user: int, role: Role)
    requires Resolves(t) && -1 !in t.work.bookings
    ensures var before, after := t.work, Purged(t, user, role).work;
            && after.bookings ==
               (map b | b in before.bookings && !BookingGoes(t, b, user, role) :: before.bookings[b])
            && after.conversations ==
               (map c | c in before.conversations && !IsTheirConversation(t, c, user, role) :: before.conversations[c])
            && (forall m :: m in after.messages <==>
                  m in before.messages && !IsTheirConversation(t, before.messages[m].conversation, user, role))
            && (forall m :: m in after.messages ==>
                  after.messages[m] == before.messages[m].(booking :=
                    var b := before.messages[m].booking;
                    if b.Some? && BookingGoes(t, b.value, user, role) then None else b))
  {
    hide LedgersAfter, BalancesReversed, WithoutUser, RecordsAfter, ProgrammeAfter, OwnAfter, Collect, Foreign,
         LedgersResolve, RecordsResolve, ProgrammeResolves, IsTheirs, IsForeign, IsTheirConversation;
    var d, before, after := Collect(t, user, role), t.work, Purged(t, user, role).work;
    forall b: int
      ensures b in before.bookings && (b in d.bookings || b in Foreign(t.work, d)) <==> BookingGoes(t, b, user, role)
    {
      BookingIsCollected(t, user, role, b);
    }
    forall c: int ensures c in d.conversations <==> IsTheirConversation(t, c, user, role) {
      CollectedConversations(t, user, role, c);
    }
    assert forall b :: b in after.bookings <==> b in before.bookings && !BookingGoes(t, b, user, role);
    assert forall c :: c in after.conversations <==>
      c in before.conversations && !IsTheirConversation(t, c, user, role);
    forall m | m in before.messages
      ensures before.messages[m].conversation in d.conversations <==>
              IsTheirConversation(t, before.messages[m].conversation, user, role)
      ensures PointsInto(before.messages[m].booking, d.bookings + Foreign(t.work, d)) <==>
              before.messages[m].booking.Some? && BookingGoes(t, before.messages[m].booking.value, user, role)
    {
      CollectedConversations(t, user, role, before.messages[m].conversation);
      match before.messages[m].booking {
        case Some(b) => assert b in before.bookings;
        case None =>
      }
    }
    assert forall m :: m in after.messages <==>
      m in before.messages && !IsTheirConversation(t, before.messages[m].conversation, user, role);
  }

  lemma BookingIsCollected(t: Tables, user: int, role: Role, b: int)
    requires -1 !in t.work.bookings
    ensures var d := Collect(t, user, role);
            b in t.work.bookings && (b in d.bookings || b in Foreign(t.work, d)) <==> BookingGoes(t, b, user, role)
  {
    CollectedForeign(t, user, role, b);
    if b in t.work.bookings {
      CollectedBookings(t, user, role, b);
    }
  }

  predicate PaymentGoes(t: Tables, p: Payment, user: int, role: Role) {
    (p.booking.Some? && IsTheirs(t, p.booking.value, user, role)) || (role == Customer && p.customer == user)
  }

  predicate IsOnTheirComplaint(t: Tables, complaint: int, user: int, role: Role) {
    complaint in t.records.complaints && IsTheirs(t, t.records.complaints[complaint].booking, user, role)
  }

  lemma PaymentsThatStay(t: Tables, user: int, role: Role)
    requires Resolves(t) && -1 !in t.work.bookings
    ensures var before, after := t.records.payments, Purged(t, user, role).records.payments;
            after == (map p | p in before && !PaymentGoes(t, before[p], user, role) :: before[p])
  {
    hide LedgersAfter, BalancesReversed, WithoutUser, WorkAfter, ProgrammeAfter, OwnAfter, Collect, Foreign,
         LedgersResolve, WorkResolves, ProgrammeResolves, IsTheirs, ComplaintsOn;
    var d, before := Collect(t, user, role), t.records;
    forall p | p in before.payments
      ensures PaymentDoomed(before.payments[p], d, user, role) <==> PaymentGoes(t, before.payments[p], user, role)
    {
      if before.payments[p].booking.Some? {
        var b := before.payments[p].booking.value;
        assert b in t.work.bookings;
        CollectedBookings(t, user, role, b);
      }
    }
  }

  /**
   * Exactly the records of the user's bookings go, and a customer's payments
   * besides; of the calls also those about other people's bookings that go.
   */
  lemma RecordsThatStay(t: Tables, user: int, role: Role)
    requires Resolves(t) && -1 !in t.work.bookings
    ensures var before, after := t.records, Purged(t, user, role).records;
            && after.payments ==
               (map p | p in before.payments && !PaymentGoes(t, before.payments[p], user, role) :: before.payments[p])
            && after.complaints ==
               (map c | c in before.complaints && !IsTheirs(t, before.complaints[c].booking, user, role)
                  :: before.complaints[c])
            && after.cashRefunds ==
               (map c | c in before.cashRefunds && !IsOnTheirComplaint(t, before.cashRefunds[c], user, role)
                  :: before.cashRefunds[c])
            && after.evidence ==
               (map e | e in before.evidence && !IsOnTheirComplaint(t, before.evidence[e], user, role)
                  :: before.evidence[e])
  {
    hide LedgersAfter, BalancesReversed, WithoutUser, WorkAfter, ProgrammeAfter, OwnAfter, Collect, Foreign,
         LedgersResolve, WorkResolves, ProgrammeResolves, IsTheirs, PaymentGoes, PaymentDoomed;
    PaymentsThatStay(t, user, role);
    var d, before := Collect(t, user, role), t.records;
    forall c | c in before.complaints
      ensures c in ComplaintsOn(before, d.bookings) <==> IsTheirs(t, before.complaints[c].booking, user, role)
    {
      var b := before.complaints[c].booking;
      assert b in t.work.bookings;
      CollectedBookings(t, user, role, b);
    }
  }

  lemma BookingRecordsThatStay(t: Tables, user: int, role: Role)
    requires Resolves(t) && -1 !in t.work.bookings
    ensures var before, after := t.records, Purged(t, user, role).records;
            && after.chargebacks ==
               (map c | c in before.chargebacks
                        && !(before.chargebacks[c].Some? && IsTheirs(t, before.chargebacks[c].value, user, role))
                  :: before.chargebacks[c])
            && after.proofs ==
               (map p | p in before.proofs && !IsTheirs(t, before.proofs[p], user, role) :: before.proofs[p])
            && after.reviews ==
               (map v | v in before.reviews && !IsTheirs(t, before.reviews[v], user, role) :: before.reviews[v])
            && after.calls ==
               (map c | c in before.calls && !BookingGoes(t, before.calls[c].booking, user, role) :: before.calls[c])
  {
    hide LedgersAfter, BalancesReversed, WithoutUser, WorkAfter, ProgrammeAfter, OwnAfter, Collect, Foreign,
         LedgersResolve, WorkResolves, ProgrammeResolves, IsTheirs, BookingGoes;
    var d, before := Collect(t, user, role), t.records;
    forall b: int | b in t.work.bookings
      ensures b in d.bookings <==> IsTheirs(t, b, user, role)
      ensures b in d.bookings + Foreign(t.work, d) <==> BookingGoes(t, b, user, role)
    {
      CollectedBookings(t, user, role, b);
      BookingIsCollected(t, user, role, b);
    }
    forall c | c in before.chargebacks
      ensures PointsInto(before.chargebacks[c], d.bookings) <==>
              before.chargebacks[c].Some? && IsTheirs(t, before.chargebacks[c].value, user, role)
    {
      match before.chargebacks[c] {
        case Some(b) => assert b in t.work.bookings;
        case None =>
      }
    }
    forall p | p in before.proofs
      ensures before.proofs[p] in d.bookings <==> IsTheirs(t, before.proofs[p], user, role)
    {
      var b := before.proofs[p];
      assert b in t.work.bookings;
    }
    forall v | v in before.reviews
      ensures before.reviews[v] in d.bookings <==> IsTheirs(t, before.reviews[v], user, role)
    {
      var b := before.reviews[v];
      assert b in t.work.bookings;
    }
    forall c | c in before.calls
      ensures before.calls[c].booking in d.bookings + Foreign(t.work, d) <==>
              BookingGoes(t, before.calls[c].booking, user, role)
    {
      var b := before.calls[c].booking;
      assert b in t.work.bookings;
    }
  }

  /**
   * Of rows that hang on no booking: the user's withdrawals, payout
   * methods, elite history and balances in the role.
   */
  lemma OwnRowsThatStay(t: Tables, user: int, role: Role)
    ensures var before, after := t.own, Purged(t, user, role).own;
            && after.customerWithdrawals ==
               (map x | x in before.customerWithdrawals && !(role == Customer && before.customerWithdrawals[x] == user)
                  :: before.customerWithdrawals[x])
            && after.taskerWithdrawals ==
               (map x | x in before.taskerWithdrawals && !(role == Tasker && before.taskerWithdrawals[x].tasker == user)
                  :: before.taskerWithdrawals[x])
            && after.payoutMethods ==
               (map x | x in before.payoutMethods && !(role == Tasker && before.payoutMethods[x] == user)
                  :: before.payoutMethods[x])
            && after.evaluations ==
               (map x | x in before.evaluations && !(role == Tasker && before.evaluations[x] == user)
                  :: before.evaluations[x])
            && after.transitions ==
               (map x | x in before.transitions && !(role == Tasker && before.transitions[x] == user)
                  :: before.transitions[x])
    ensures var before, after := t.balances, Purged(t, user, role).balances;
            && (forall u :: u in after.customer <==> u in before.customer && !(role == Customer && u == user))
            && (forall u :: u in after.tasker <==> u in before.tasker && !(role == Tasker && u == user))
            && (forall u :: u in after.platform <==> u in before.platform && !(role == Tasker && u == user))
    ensures Purged(t, user, role).supportMessages == t.supportMessages
  {
    hide LedgersAfter, WorkAfter, ProgrammeAfter, RecordsAfter, Collect, Total, Removed;
  }

  // ---- When a purge goes through, and what it reports ----

  /**
   * Of the two ways in which a purge is stopped, the first: a row that stays
   * refers to another person's booking in one of the user's conversations.
   */
  lemma StoppedByForeignBookings(t: Tables, user: int, role: Role)
    requires -1 !in t.work.bookings
    ensures var after := Purged(t, user, role);
            ForeignBookingsUnused(t, user, role) <==>
            forall b :: IsForeign(t, b, user, role) ==>
              !IsReferredTo(after.ledgers, after.programme, after.records, b)
  {
    var d, after := Collect(t, user, role), Purged(t, user, role);
    hide Collect, BookingsFree, IsReferredTo, Foreign, IsForeign;
    forall b: int ensures b in Foreign(t.work, d) <==> IsForeign(t, b, user, role) {
      CollectedForeign(t, user, role, b);
    }
    FreeMeansNotReferredTo(after.ledgers, after.programme, after.records, Foreign(t.work, d));
  }

  /** An entry that is about a withdrawal of this user. */
  predicate IsOnWithdrawal(o: Own, e: Entry, user: int, role: Role) {
    && e.withdrawal.Some?
    && (match role
        case Customer =>
          e.withdrawal.value in o.customerWithdrawals && o.customerWithdrawals[e.withdrawal.value] == user
        case Tasker =>
          e.withdrawal.value in o.taskerWithdrawals && o.taskerWithdrawals[e.withdrawal.value].tasker == user)
  }

  /** Another tasker's withdrawal to a payout method of this user. */
  predicate IsPaidToTheirs(o: Own, withdrawal: int, user: int) {
    && withdrawal in o.taskerWithdrawals && o.taskerWithdrawals[withdrawal].tasker != user
    && (var paidTo := o.taskerWithdrawals[withdrawal].payoutMethod;
        paidTo in o.payoutMethods && o.payoutMethods[paidTo] == user)
  }

  /**
   * The second: an entry that stays is about a withdrawal of the user, or
   * somebody else was paid to a method of theirs.
   */
  lemma StoppedByPayouts(t: Tables, user: int, role: Role)
    ensures var after := Purged(t, user, role).ledgers;
            PayoutsUnshared(t, user, role) <==>
            match role
            case Customer => forall e :: e in after.customer ==> !IsOnWithdrawal(t.own, e, user, role)
            case Tasker =>
              && (forall e :: e in after.tasker ==> !IsOnWithdrawal(t.own, e, user, role))
              && (forall x :: !IsPaidToTheirs(t.own, x, user))
  {
    hide Collect, Kept, BalancesReversed, WithoutUser, ProgrammeAfter, RecordsAfter, WorkAfter, WithdrawalsFree,
         PayoutMethodsFree, IsOnWithdrawal, IsPaidToTheirs, OwnAfter, PayoutMethodsOf, WithdrawalsOf;
    WithdrawalsFreeMeans(t.own, Purged(t, user, role).ledgers, user, role);
    PayoutMethodsFreeMeans(t.own, user);
  }

  lemma WithdrawalsFreeMeans(o: Own, l: Ledgers, user: int, role: Role)
    ensures WithdrawalsFree(l, role, WithdrawalsOf(o, user, role)) <==>
            forall e :: e in (if role.Customer? then l.customer else l.tasker) ==> !IsOnWithdrawal(o, e, user, role)
  {
    forall e: Entry
      ensures PointsInto(e.withdrawal, WithdrawalsOf(o, user, role)) <==> IsOnWithdrawal(o, e, user, role)
    {
      match e.withdrawal {
        case Some(x) => assert x in WithdrawalsOf(o, user, role) <==> IsOnWithdrawal(o, e, user, role);
        case None =>
      }
    }
  }

  lemma PayoutMethodsFreeMeans(o: Own, user: int)
    ensures PayoutMethodsFree(OwnAfter(o, user, Tasker), PayoutMethodsOf(o, user)) <==>
            forall x :: !IsPaidToTheirs(o, x, user)
  {
    forall x: int
      ensures IsPaidToTheirs(o, x, user) <==>
              && x in OwnAfter(o, user, Tasker).taskerWithdrawals
              && o.taskerWithdrawals[x].payoutMethod in PayoutMethodsOf(o, user)
    {
    }
  }

  /** Another user is reported exactly when the sum of their entries changes in some ledger. */
  lemma MovedMeansSumChanged(t: Tables, user: int, role: Role, u: int)
    ensures var before, after := t.ledgers, Purged(t, user, role).ledgers;
            Moved(before, Collect(t, user, role), user, role, u) <==>
            && u != user
            && (|| Total(after.customer, u) != Total(before.customer, u)
                || Total(after.tasker, u) != Total(before.tasker, u)
                || Total(after.platform, u) != Total(before.platform, u))
  {
    var d := Collect(t, user, role);
    hide Collect, BalancesReversed, WithoutUser, ProgrammeAfter, RecordsAfter, WorkAfter, OwnAfter;
    hide Kept, Removed, Total;
    TotalSplits(t.ledgers.customer, CustomerEntries(d, user, role), u);
    TotalSplits(t.ledgers.tasker, TaskerEntries(d, user, role), u);
    TotalSplits(t.ledgers.platform, PlatformEntries(d, user, role), u);
  }

  lemma {:induction false} KeptAndRemovedLengths(ledger: seq<Entry>, s: Selection)
    ensures |Kept(ledger, s)| + |Removed(ledger, s)| == |ledger|
  {
    hide Selected;
    if ledger != [] {
      KeptAndRemovedLengths(ledger[1..], s);
    }
  }

  lemma EntryCountsAreEntriesGone(s: Summary, t: Tables, user: int, role: Role)
    requires Counts(s, t, user, role)
    ensures var after := Purged(t, user, role).ledgers;
            && s.customerLedgerEntries == |t.ledgers.customer| - |after.customer|
            && s.taskerLedgerEntries == |t.ledgers.tasker| - |after.tasker|
            && s.platformLedgerEntries == |t.ledgers.platform| - |after.platform|
  {
    var d := Collect(t, user, role);
    hide Collect, BalancesReversed, WithoutUser, RecordsAfter, WorkAfter, OwnAfter, ProgrammeAfter, Kept, Removed;
    KeptAndRemovedLengths(t.ledgers.customer, CustomerEntries(d, user, role));
    KeptAndRemovedLengths(t.ledgers.tasker, TaskerEntries(d, user, role));
    KeptAndRemovedLengths(t.ledgers.platform, PlatformEntries(d, user, role));
  }

  lemma ProgrammeRowsGone(p: Programme, d: Doomed)
    ensures var after := ProgrammeAfter(p, d);
            && p.referrals.Keys - after.referrals.Keys == d.referrals * p.referrals.Keys
            && p.rewards.Keys - after.rewards.Keys == d.rewards * p.rewards.Keys
            && p.earnings.Keys - after.earnings.Keys == d.earnings * p.earnings.Keys
  {
  }

  lemma ProgrammeCountsAreRowsGone(s: Summary, t: Tables, user: int, role: Role)
    requires Counts(s, t, user, role)
    ensures var after := Purged(t, user, role).programme;
            && s.referrals == |t.programme.referrals.Keys - after.referrals.Keys|
            && s.referralRewards == |t.programme.rewards.Keys - after.rewards.Keys|
            && s.taskerEarnings == |t.programme.earnings.Keys - after.earnings.Keys|
  {
    ProgrammeRowsGone(t.programme, Collect(t, user, role));
    hide Collect, LedgersAfter, BalancesReversed, WithoutUser, RecordsAfter, WorkAfter, OwnAfter, ProgrammeAfter,
         Removed, PaymentsOf, ComplaintsOn, ReviewsOn, WithdrawalsOf;
  }

  /** Entries, rewards, referrals and earnings are counted as they disappear. */
  lemma MoneyCountsAreRowsGone(s: Summary, t: Tables, user: int, role: Role)
    requires Counts(s, t, user, role)
    ensures var after := Purged(t, user, role);
            && s.customerLedgerEntries == |t.ledgers.customer| - |after.ledgers.customer|
            && s.taskerLedgerEntries == |t.ledgers.tasker| - |after.ledgers.tasker|
            && s.platformLedgerEntries == |t.ledgers.platform| - |after.ledgers.platform|
            && s.referrals == |t.programme.referrals.Keys - after.programme.referrals.Keys|
            && s.referralRewards == |t.programme.rewards.Keys - after.programme.rewards.Keys|
            && s.taskerEarnings == |t.programme.earnings.Keys - after.programme.earnings.Keys|
  {
    hide *;
    EntryCountsAreEntriesGone(s, t, user, role);
    ProgrammeCountsAreRowsGone(s, t, user, role);
  }

  lemma RecordsGone(r: Records, d: Doomed, foreign: set<int>, user: int, role: Role)
    ensures var after := RecordsAfter(r, d, foreign, user, role);
            && r.payments.Keys - after.payments.Keys == PaymentsOf(r, d, user, role)
            && r.complaints.Keys - after.complaints.Keys == ComplaintsOn(r, d.bookings)
            && r.reviews.Keys - after.reviews.Keys == ReviewsOn(r, d.bookings)
  {
    hide PaymentDoomed, PointsInto;
  }

  lemma BookingRecordCountsAreRowsGone(s: Summary, t: Tables, user: int, role: Role)
    requires Counts(s, t, user, role)
    ensures var after := Purged(t, user, role).records;
            && s.paymentTransactions == |t.records.payments.Keys - after.payments.Keys|
            && s.disputes == |t.records.complaints.Keys - after.complaints.Keys|
            && s.reviews == |t.records.reviews.Keys - after.reviews.Keys|
  {
    var d := Collect(t, user, role);
    RecordsGone(t.records, d, Foreign(t.work, d), user, role);
    hide Collect, LedgersAfter, BalancesReversed, WithoutUser, ProgrammeAfter, RecordsAfter, WorkAfter, OwnAfter,
         Removed, Foreign, PaymentsOf, ComplaintsOn, ReviewsOn, WithdrawalsOf;
  }

  lemma WithdrawalCountIsRowsGone(s: Summary, t: Tables, user: int, role: Role)
    requires Counts(s, t, user, role)
    ensures var after := Purged(t, user, role).own;
            s.withdrawals == |t.own.customerWithdrawals.Keys - after.customerWithdrawals.Keys|
                           + |t.own.taskerWithdrawals.Keys - after.taskerWithdrawals.Keys|
  {
    hide Collect, LedgersAfter, BalancesReversed, WithoutUser, ProgrammeAfter, RecordsAfter, WorkAfter, OwnAfter,
         Removed, WithdrawalsOf;
    WithdrawalCount(t.own, user, role);
  }

  /** So are the records of bookings, and withdrawals. */
  lemma RecordCountsAreRowsGone(s: Summary, t: Tables, user: int, role: Role)
    requires Counts(s, t, user, role)
    ensures var after := Purged(t, user, role);
            && s.paymentTransactions == |t.records.payments.Keys - after.records.payments.Keys|
            && s.disputes == |t.records.complaints.Keys - after.records.complaints.Keys|
            && s.reviews == |t.records.reviews.Keys - after.records.reviews.Keys|
            && s.withdrawals == |t.own.customerWithdrawals.Keys - after.own.customerWithdrawals.Keys|
                              + |t.own.taskerWithdrawals.Keys - after.own.taskerWithdrawals.Keys|
  {
    hide *;
    BookingRecordCountsAreRowsGone(s, t, user, role);
    WithdrawalCountIsRowsGone(s, t, user, role);
  }

  /** Of bookings only the user's own are counted, not other people's that fall with a conversation. */
  lemma WorkCountsAreRowsGone(s: Summary, t: Tables, user: int, role: Role)
    requires Counts(s, t, user, role) && -1 !in t.work.bookings
    ensures s.bookings == |set b | b in t.work.bookings && IsTheirs(t, b, user, role)|
    ensures s.conversations == |t.work.conversations.Keys - Purged(t, user, role).work.conversations.Keys|
  {
    hide *;
    CountsOfWork(s, t, user, role);
    OwnBookingsAreCollected(t, user, role);
    ConversationsGoAsCollected(t, user, role);
  }

  lemma CountsOfWork(s: Summary, t: Tables, user: int, role: Role)
    requires Counts(s, t, user, role)
    ensures s.bookings == |Collect(t, user, role).bookings * t.work.bookings.Keys|
    ensures s.conversations == |Collect(t, user, role).conversations * t.work.conversations.Keys|
  {
  }

  lemma ConversationsGoAsCollected(t: Tables, user: int, role: Role)
    ensures t.work.conversations.Keys - Purged(t, user, role).work.conversations.Keys ==
            Collect(t, user, role).conversations * t.work.conversations.Keys
  {
    hide Collect, LedgersAfter, BalancesReversed, WithoutUser, ProgrammeAfter, RecordsAfter, OwnAfter, Foreign;
  }

  lemma OwnBookingsAreCollected(t: Tables, user: int, role: Role)
    requires -1 !in t.work.bookings
    ensures Collect(t, user, role).bookings * t.work.bookings.Keys ==
            set b | b in t.work.bookings && IsTheirs(t, b, user, role)
  {
    var theirs := set b | b in t.work.bookings && IsTheirs(t, b, user, role);
    forall b: int ensures b in Collect(t, user, role).bookings * t.work.bookings.Keys <==> b in theirs {
      if b in t.work.bookings {
        CollectedBookings(t, user, role, b);
      }
    }
  }

  lemma WithdrawalCount(o: Own, user: int, role: Role)
    ensures var after := OwnAfter(o, user, role);
            |WithdrawalsOf(o, user, role)| == |o.customerWithdrawals.Keys - after.customerWithdrawals.Keys|
                                            + |o.taskerWithdrawals.Keys - after.taskerWithdrawals.Keys|
  {
    if role.Customer? {
      CustomerWithdrawalsGone(o, user);
    } else {
      TaskerWithdrawalsGone(o, user);
    }
    hide OwnAfter, WithdrawalsOf;
  }

  lemma CustomerWithdrawalsGone(o: Own, user: int)
    ensures o.customerWithdrawals.Keys - OwnAfter(o, user, Customer).customerWithdrawals.Keys ==
            WithdrawalsOf(o, user, Customer)
    ensures o.taskerWithdrawals.Keys - OwnAfter(o, user, Customer).taskerWithdrawals.Keys == {}
  {
  }

  lemma TaskerWithdrawalsGone(o: Own, user: int)
    ensures o.taskerWithdrawals.Keys - OwnAfter(o, user, Tasker).taskerWithdrawals.Keys ==
            WithdrawalsOf(o, user, Tasker)
    ensures o.customerWithdrawals.Keys - OwnAfter(o, user, Tasker).customerWithdrawals.Keys == {}
  {
  }
}
