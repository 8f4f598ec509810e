/**
 * Permanent deletion of an account or of one of its two marketplace roles. A
 * separately written list of blockers decides whether anything protected is
 * left; it is consulted before the transaction and again inside it.
 */
module AccountDeletion {
  import opened Common
  import opened IdLists
  import opened AccountPurge
  import opened PurgeProperties
  import opened PurgeRows

  // ---- Blockers ----

  datatype Resource =
    | Bookings | PaymentTransactions | CustomerWalletLedger | CustomerWalletBalance | TaskerWalletLedger
    | TaskerWalletBalance | TaskerEarnings | PlatformReceivables | PlatformPayableBalance | PlatformLedger | Withdrawals
    | Reviews | Disputes | ConversationMessages | ConversationCalls | ExternalSupportMessages | ReferralAttributions
    | ReferralRewards | EliteEvaluations | EliteTransitions

  datatype Blocker = Blocker(resource: Resource, count: nat)

  const RESOURCES: seq<Resource> := [
    Bookings, PaymentTransactions, CustomerWalletLedger, CustomerWalletBalance, TaskerWalletLedger, TaskerWalletBalance,
    TaskerEarnings, PlatformReceivables, PlatformPayableBalance, PlatformLedger, Withdrawals, Reviews, Disputes,
    ConversationMessages, ConversationCalls, ExternalSupportMessages, ReferralAttributions, ReferralRewards,
    EliteEvaluations, EliteTransitions]

  function EntriesOf(ledger: seq<Entry>, user: int): seq<Entry> {
    Removed(ledger, Selection({}, {}, {}, {}, Some(user)))
  }

  function NonZero(balances: map<int, Balance>, user: int): nat {
    if user in balances && balances[user] != ZERO then 1 else 0
  }

  /** Whether a row's booking exists and is on the user's side. */
  predicate OnUsersBooking(w: Work, booking: int, user: int, role: Role) {
    booking in w.bookings && SideOf(w.bookings[booking], role) == user
  }

  function RewardsTo(p: Programme, user: int, role: Role): set<int> {
    set x | x in p.rewards && p.rewards[x].recipient == user && p.rewards[x].recipientRole == role
  }

  function ReferralsAttributed(p: Programme, user: int, role: Role): set<int> {
    set x | x in p.referrals && p.referrals[x].program == role
            && (p.referrals[x].referrer == user || p.referrals[x].referred == user)
  }

  function EarningsOf(p: Programme, user: int): set<int> {
    set e | e in p.earnings && p.earnings[e].tasker == user
  }

  function ReceivablesTouching(p: Programme, user: int): set<int> {
    set x | x in p.receivables && (p.receivables[x].tasker == user || p.receivables[x].confirmedBy == user)
  }

  predicate IsUsersCall(w: Work, call: Call, user: int, role: Role) {
    OnUsersBooking(w, call.booking, user, role) && (call.initiator == user || call.recipient == user)
  }

  /** The count behind one line of the list. */
  function CountOf(t: Tables, user: int, role: Role, resource: Resource): nat {
    var p, r, w, o := t.programme, t.records, t.work, t.own;
    match resource
    case Bookings => |set b | b in w.bookings && SideOf(w.bookings[b], role) == user|
    case PaymentTransactions =>
      if role.Tasker? then 0 else |set x | x in r.payments && r.payments[x].customer == user|
    case CustomerWalletLedger => if role.Tasker? then 0 else |EntriesOf(t.ledgers.customer, user)|
    case CustomerWalletBalance => if role.Tasker? then 0 else NonZero(t.balances.customer, user)
    case TaskerWalletLedger => if role.Customer? then 0 else |EntriesOf(t.ledgers.tasker, user)|
    case TaskerWalletBalance => if role.Customer? then 0 else NonZero(t.balances.tasker, user)
    case TaskerEarnings => if role.Customer? then 0 else |EarningsOf(p, user)|
    case PlatformReceivables => if role.Customer? then 0 else |ReceivablesTouching(p, user)|
    case PlatformPayableBalance => if role.Customer? then 0 else NonZero(t.balances.platform, user)
    case PlatformLedger => if role.Customer? then 0 else |EntriesOf(t.ledgers.platform, user)|
    case Withdrawals =>
      if role.Customer? then 0 else |set x | x in o.taskerWithdrawals && o.taskerWithdrawals[x].tasker == user|
    case Reviews => |set v | v in r.reviews && OnUsersBooking(w, r.reviews[v], user, role)|
    case Disputes =>
      |set c | c in r.complaints && OnUsersBooking(w, r.complaints[c].booking, user, role)
               && r.complaints[c].filedBy == user|
    case ConversationMessages =>
      |set m | m in w.messages && w.messages[m].sender == user && w.messages[m].conversation in w.conversations
               && PartyOf(w.conversations[w.messages[m].conversation], role) == user|
    case ConversationCalls =>
      |set c | c in r.calls && IsUsersCall(w, r.calls[c], user, role)|
    case ExternalSupportMessages => |ExternalMessages(t, user, role)|
    case ReferralAttributions => |ReferralsAttributed(p, user, role)|
    case ReferralRewards => |RewardsTo(p, user, role)|
    case EliteEvaluations => if role.Customer? then 0 else |set x | x in o.evaluations && o.evaluations[x] == user|
    case EliteTransitions => if role.Customer? then 0 else |set x | x in o.transitions && o.transitions[x] == user|
  }

  /** Messages the user wrote in support tickets of others. */
  function ExternalMessages(t: Tables, user: int, role: Role): set<int> {
    set m | m in t.supportMessages && t.supportMessages[m].sender == user
            && t.supportMessages[m].ticketRole == role && t.supportMessages[m].ticketOwner != user
  }

  function Listed(t: Tables, user: int, role: Role, resources: seq<Resource>): seq<Blocker> {
    if resources == [] then []
    else
      var count := CountOf(t, user, role, resources[0]);
      (if count > 0 then [Blocker(resources[0], count)] else []) + Listed(t, user, role, resources[1..])
  }

  /** The lines with a positive count, in the order of the report. */
  function Blockers(t: Tables, user: int, role: Role): seq<Blocker> {
    Listed(t, user, role, RESOURCES)
  }

  lemma {:induction false} ListedMembers(t: Tables, user: int, role: Role, resources: seq<Resource>, b: Blocker)
    ensures b in Listed(t, user, role, resources) <==>
            b.resource in resources && b.count == CountOf(t, user, role, b.resource) > 0
  {
    hide CountOf;
    if resources != [] {
      ListedMembers(t, user, role, resources[1..], b);
    }
  }

  lemma EveryResourceIsListed(r: Resource)
    ensures r in RESOURCES
  {
    assert RESOURCES[0] == Bookings && RESOURCES[1] == PaymentTransactions && RESOURCES[2] == CustomerWalletLedger
           && RESOURCES[3] == CustomerWalletBalance && RESOURCES[4] == TaskerWalletLedger;
    assert RESOURCES[5] == TaskerWalletBalance && RESOURCES[6] == TaskerEarnings && RESOURCES[7] == PlatformReceivables
           && RESOURCES[8] == PlatformPayableBalance && RESOURCES[9] == PlatformLedger;
    assert RESOURCES[10] == Withdrawals && RESOURCES[11] == Reviews && RESOURCES[12] == Disputes
           && RESOURCES[13] == ConversationMessages && RESOURCES[14] == ConversationCalls;
    assert RESOURCES[15] == ExternalSupportMessages && RESOURCES[16] == ReferralAttributions
           && RESOURCES[17] == ReferralRewards && RESOURCES[18] == EliteEvaluations
           && RESOURCES[19] == EliteTransitions;
  }

  /** The list says exactly what is there: no count is left out and none is invented. */
  lemma BlockersAreTheCounts(t: Tables, user: int, role: Role, b: Blocker)
    ensures b in Blockers(t, user, role) <==> b.count == CountOf(t, user, role, b.resource) > 0
  {
    hide CountOf, Listed;
    ListedMembers(t, user, role, RESOURCES, b);
    EveryResourceIsListed(b.resource);
  }

  // ---- The rows behind the list ----

  /** The table in which the rows of a line are found, by the ids of its rows. */
  function RowIds(t: Tables, resource: Resource): set<int> {
    match resource
    case Bookings => t.work.bookings.Keys
    case PaymentTransactions => t.records.payments.Keys
    case TaskerEarnings => t.programme.earnings.Keys
    case PlatformReceivables => t.programme.receivables.Keys
    case Withdrawals => t.own.taskerWithdrawals.Keys
    case Reviews => t.records.reviews.Keys
    case Disputes => t.records.complaints.Keys
    case ConversationMessages => t.work.messages.Keys
    case ConversationCalls => t.records.calls.Keys
    case ExternalSupportMessages => t.supportMessages.Keys
    case ReferralAttributions => t.programme.referrals.Keys
    case ReferralRewards => t.programme.rewards.Keys
    case EliteEvaluations => t.own.evaluations.Keys
    case EliteTransitions => t.own.transitions.Keys
    case _ => {}
  }

  /** Rows that only a customer or only a tasker has. */
  predicate IsProtectedOwn(t: Tables, user: int, role: Role, resource: Resource, id: int)
    requires id in RowIds(t, resource)
  {
    match resource
    case PaymentTransactions => role == Customer && t.records.payments[id].customer == user
    case TaskerEarnings => role == Tasker && t.programme.earnings[id].tasker == user
    case PlatformReceivables =>
      role == Tasker && (t.programme.receivables[id].tasker == user || t.programme.receivables[id].confirmedBy == user)
    case Withdrawals => role == Tasker && t.own.taskerWithdrawals[id].tasker == user
    case EliteEvaluations => role == Tasker && t.own.evaluations[id] == user
    case EliteTransitions => role == Tasker && t.own.transitions[id] == user
    case _ => false
  }

  /** Whether the row with this id is a reason to refuse the deletion. */
  predicate IsProtected(t: Tables, user: int, role: Role, resource: Resource, id: int)
    requires id in RowIds(t, resource)
  {
    match resource
    case Bookings => IsTheirs(t, id, user, role)
    case Reviews => IsTheirs(t, t.records.reviews[id], user, role)
    case Disputes =>
      t.records.complaints[id].filedBy == user && IsTheirs(t, t.records.complaints[id].booking, user, role)
    case ConversationMessages =>
      t.work.messages[id].sender == user && IsTheirConversation(t, t.work.messages[id].conversation, user, role)
    case ConversationCalls =>
      && IsTheirs(t, t.records.calls[id].booking, user, role)
      && (t.records.calls[id].initiator == user || t.records.calls[id].recipient == user)
    case ExternalSupportMessages =>
      && t.supportMessages[id].sender == user && t.supportMessages[id].ticketOwner != user
      && t.supportMessages[id].ticketRole == role
    case ReferralAttributions => ReferralGoes(t.programme.referrals[id], user, role)
    case ReferralRewards =>
      t.programme.rewards[id].recipient == user && t.programme.rewards[id].recipientRole == role
    case _ => IsProtectedOwn(t, user, role, resource, id)
  }

  function ProtectedRows(t: Tables, user: int, role: Role, resource: Resource): set<int> {
    set id | id in RowIds(t, resource) && IsProtected(t, user, role, resource, id)
  }

  /** The number of entries of an owner. */
  function EntryCount(ledger: seq<Entry>, user: int): nat {
    if ledger == [] then 0
    else EntryCount(ledger[..|ledger| - 1], user) + (if ledger[|ledger| - 1].owner == user then 1 else 0)
  }

  predicate IsOpenBalance(balances: map<int, Balance>, user: int) {
    user in balances && (balances[user].available != 0 || balances[user].pending != 0)
  }

  lemma {:induction false} RemovedOfSnoc(ledger: seq<Entry>, e: Entry, s: Selection)
    ensures Removed(ledger + [e], s) == Removed(ledger, s) + (if Selected(e, s) then [e] else [])
  {
    hide Selected;
    if ledger != [] {
      RemovedOfSnoc(ledger[1..], e, s);
      assert (ledger + [e])[1..] == ledger[1..] + [e];
    }
  }

  lemma {:induction false} EntriesAreCounted(ledger: seq<Entry>, user: int)
    ensures |EntriesOf(ledger, user)| == EntryCount(ledger, user)
  {
    if ledger != [] {
      var before, last := ledger[..|ledger| - 1], ledger[|ledger| - 1];
      RemovedOfSnoc(before, last, Selection({}, {}, {}, {}, Some(user)));
      assert before + [last] == ledger;
      hide Removed;
      EntriesAreCounted(before, user);
    }
  }

  /** The lines about money: entries of the user's in the role's ledgers, and balances of the role that are not zero. */
  lemma MoneyIsCounted(t: Tables, user: int, role: Role)
    ensures CountOf(t, user, role, CustomerWalletLedger) ==
            if role == Customer then EntryCount(t.ledgers.customer, user) else 0
    ensures CountOf(t, user, role, TaskerWalletLedger) ==
            if role == Tasker then EntryCount(t.ledgers.tasker, user) else 0
    ensures CountOf(t, user, role, PlatformLedger) ==
            if role == Tasker then EntryCount(t.ledgers.platform, user) else 0
    ensures CountOf(t, user, role, CustomerWalletBalance) ==
            if role == Customer && IsOpenBalance(t.balances.customer, user) then 1 else 0
    ensures CountOf(t, user, role, TaskerWalletBalance) ==
            if role == Tasker && IsOpenBalance(t.balances.tasker, user) then 1 else 0
    ensures CountOf(t, user, role, PlatformPayableBalance) ==
            if role == Tasker && IsOpenBalance(t.balances.platform, user) then 1 else 0
  {
    hide EntriesOf;
    EntriesAreCounted(t.ledgers.customer, user);
    EntriesAreCounted(t.ledgers.tasker, user);
    EntriesAreCounted(t.ledgers.platform, user);
  }

  predicate IsAboutMoney(resource: Resource) {
    resource in {CustomerWalletLedger, CustomerWalletBalance, TaskerWalletLedger, TaskerWalletBalance,
                 PlatformPayableBalance, PlatformLedger}
  }

  lemma OwnRowsAreCounted(t: Tables, user: int, role: Role, resource: Resource)
    requires resource in {PaymentTransactions, TaskerEarnings, PlatformReceivables, Withdrawals, EliteEvaluations,
                          EliteTransitions}
    ensures CountOf(t, user, role, resource) == |ProtectedRows(t, user, role, resource)|
  {
    var r, p, o, rows := t.records, t.programme, t.own, ProtectedRows(t, user, role, resource);
    match resource {
      case PaymentTransactions =>
        assert rows == if role.Tasker? then {} else set x | x in r.payments && r.payments[x].customer == user;
      case TaskerEarnings => assert rows == if role.Customer? then {} else EarningsOf(p, user);
      case PlatformReceivables => assert rows == if role.Customer? then {} else ReceivablesTouching(p, user);
      case Withdrawals =>
        assert rows == if role.Customer? then {}
                       else set x | x in o.taskerWithdrawals && o.taskerWithdrawals[x].tasker == user;
      case EliteEvaluations =>
        assert rows == if role.Customer? then {} else set x | x in o.evaluations && o.evaluations[x] == user;
      case EliteTransitions =>
        assert rows == if role.Customer? then {} else set x | x in o.transitions && o.transitions[x] == user;
    }
  }

  lemma SharedRowsAreCounted(t: Tables, user: int, role: Role, resource: Resource)
    requires resource in {Bookings, Reviews, Disputes, ConversationMessages, ConversationCalls,
                          ExternalSupportMessages, ReferralAttributions, ReferralRewards}
    ensures CountOf(t, user, role, resource) == |ProtectedRows(t, user, role, resource)|
  {
    var r, w, rows := t.records, t.work, ProtectedRows(t, user, role, resource);
    match resource {
      case Bookings => assert rows == set b | b in w.bookings && SideOf(w.bookings[b], role) == user;
      case Reviews => assert rows == set v | v in r.reviews && OnUsersBooking(w, r.reviews[v], user, role);
      case Disputes =>
        assert rows == set c | c in r.complaints && OnUsersBooking(w, r.complaints[c].booking, user, role)
                               && r.complaints[c].filedBy == user;
      case ConversationMessages =>
        assert rows == set m | m in w.messages && w.messages[m].sender == user
                               && w.messages[m].conversation in w.conversations
                               && PartyOf(w.conversations[w.messages[m].conversation], role) == user;
      case ConversationCalls => assert rows == set c | c in r.calls && IsUsersCall(w, r.calls[c], user, role);
      case ExternalSupportMessages => assert rows == ExternalMessages(t, user, role);
      case ReferralAttributions => assert rows == ReferralsAttributed(t.programme, user, role);
      case ReferralRewards => assert rows == RewardsTo(t.programme, user, role);
    }
  }

  /** Every other line of the list is the number of protected rows of its kind. */
  lemma CountsAreOfProtectedRows(t: Tables, user: int, role: Role, resource: Resource)
    requires !IsAboutMoney(resource)
    ensures CountOf(t, user, role, resource) == |ProtectedRows(t, user, role, resource)|
  {
    hide CountOf, ProtectedRows;
    match resource {
      case PaymentTransactions | TaskerEarnings | PlatformReceivables | Withdrawals | EliteEvaluations
         | EliteTransitions => OwnRowsAreCounted(t, user, role, resource);
      case CustomerWalletLedger | CustomerWalletBalance | TaskerWalletLedger | TaskerWalletBalance
         | PlatformPayableBalance | PlatformLedger =>
      case Bookings | Reviews | Disputes | ConversationMessages | ConversationCalls | ExternalSupportMessages
         | ReferralAttributions | ReferralRewards => SharedRowsAreCounted(t, user, role, resource);
    }
  }

  // ---- The purge and the blockers agree ----

  /** Receivables of other taskers, on other people's bookings, that this user confirmed. */
  function ConfirmedForOthers(t: Tables, user: int, role: Role): set<int> {
    set r | r in t.programme.receivables && r !in Collect(t, user, role).receivables
            && t.programme.receivables[r].confirmedBy == user
  }

  lemma NoEntriesLeft(ledger: seq<Entry>, s: Selection, user: int)
    requires s.owner == Some(user)
    ensures EntriesOf(Kept(ledger, s), user) == []
  {
    var own := Selection({}, {}, {}, {}, Some(user));
    var left := Kept(ledger, s);
    hide Kept, Removed;
    if EntriesOf(left, user) != [] {
      var e := EntriesOf(left, user)[0];
      RemovedMembers(left, own, e);
      KeptMembers(ledger, s, e);
    }
  }

  lemma MoneyIsGone(t: Tables, user: int, role: Role, resource: Resource)
    requires resource in {CustomerWalletLedger, CustomerWalletBalance, TaskerWalletLedger, TaskerWalletBalance,
                          PlatformPayableBalance, PlatformLedger}
    ensures CountOf(Purged(t, user, role), user, role, resource) == 0
  {
    var d := Collect(t, user, role);
    hide Kept, Removed, Total, EntriesOf, Collect, ProgrammeAfter, RecordsAfter, WorkAfter, OwnAfter, TakenBack;
    if role.Customer? {
      NoEntriesLeft(t.ledgers.customer, CustomerEntries(d, user, role), user);
    } else {
      NoEntriesLeft(t.ledgers.tasker, TaskerEntries(d, user, role), user);
      NoEntriesLeft(t.ledgers.platform, PlatformEntries(d, user, role), user);
    }
  }

  lemma ProgrammeIsGone(t: Tables, user: int, role: Role, resource: Resource)
    requires resource in {TaskerEarnings, ReferralAttributions, ReferralRewards}
    ensures CountOf(Purged(t, user, role), user, role, resource) == 0
  {
    hide LedgersAfter, BalancesReversed, WithoutUser, RecordsAfter, WorkAfter, OwnAfter, EntriesOf;
    var after := Purged(t, user, role);
    var p := after.programme;
    assert role.Tasker? ==> EarningsOf(p, user) == {};
    assert ReferralsAttributed(p, user, role) == {};
    var d := Collect(t, user, role);
    assert forall x :: x in p.rewards ==> !RewardDoomed(p.rewards[x], d.bookings, d.referrals, user, role);
    assert RewardsTo(p, user, role) == {};
  }

  lemma WorkIsGone(t: Tables, user: int, role: Role, resource: Resource)
    requires resource in {Bookings, Reviews, Disputes, ConversationMessages, ConversationCalls}
    ensures CountOf(Purged(t, user, role), user, role, resource) == 0
  {
    hide LedgersAfter, BalancesReversed, WithoutUser, ProgrammeAfter, RecordsAfter, OwnAfter, EntriesOf;
    var after := Purged(t, user, role);
    var w, r := after.work, after.records;
    assert forall b :: !OnUsersBooking(w, b, user, role);
    assert (set b | b in w.bookings && SideOf(w.bookings[b], role) == user) == {};
    assert (set v | v in r.reviews && OnUsersBooking(w, r.reviews[v], user, role)) == {};
    assert (set m | m in w.messages && w.messages[m].sender == user && w.messages[m].conversation in w.conversations
              && PartyOf(w.conversations[w.messages[m].conversation], role) == user) == {};
    assert (set c | c in r.calls && IsUsersCall(w, r.calls[c], user, role)) == {};
  }

  lemma OwnRowsAreGone(t: Tables, user: int, role: Role, resource: Resource)
    requires resource in {PaymentTransactions, Withdrawals, EliteEvaluations, EliteTransitions}
    ensures CountOf(Purged(t, user, role), user, role, resource) == 0
  {
    hide LedgersAfter, BalancesReversed, WithoutUser, ProgrammeAfter, WorkAfter, EntriesOf, Collect;
    var after := Purged(t, user, role);
    var o, r := after.own, after.records;
    if role.Customer? {
      assert forall x :: x in r.payments ==> !PaymentDoomed(r.payments[x], Collect(t, user, role), user, role);
      assert (set x | x in r.payments && r.payments[x].customer == user) == {};
    } else {
      assert (set x | x in o.taskerWithdrawals && o.taskerWithdrawals[x].tasker == user) == {};
      assert (set x | x in o.evaluations && o.evaluations[x] == user) == {};
      assert (set x | x in o.transitions && o.transitions[x] == user) == {};
    }
  }

  lemma ResiduesStay(t: Tables, user: int, role: Role)
    ensures CountOf(Purged(t, user, role), user, role, ExternalSupportMessages) == |ExternalMessages(t, user, role)|
    ensures CountOf(Purged(t, user, role), user, role, PlatformReceivables) ==
            if role.Customer? then 0 else |ConfirmedForOthers(t, user, role)|
  {
    hide LedgersAfter, BalancesReversed, WithoutUser, RecordsAfter, WorkAfter, OwnAfter, EntriesOf;
    var p := Purged(t, user, role).programme;
    if role.Tasker? {
      assert ReceivablesTouching(p, user) == ConfirmedForOthers(t, user, role);
    }
  }

  /**
   * The purge and the list of blockers, written apart, agree: after a purge of
   * any tables the list can name only messages in other people's support tickets
   * and receivables of another tasker that this user confirmed, with exactly
   * those counts.
   */
  lemma PurgeLeavesOnlyTwoResidues(t: Tables, user: int, role: Role, b: Blocker)
    ensures b in Blockers(Purged(t, user, role), user, role) <==>
            && b.count > 0
            && (|| b == Blocker(ExternalSupportMessages, |ExternalMessages(t, user, role)|)
                || (role.Tasker? && b == Blocker(PlatformReceivables, |ConfirmedForOthers(t, user, role)|)))
  {
    hide *;
    BlockersAreTheCounts(Purged(t, user, role), user, role, b);
    ResiduesStay(t, user, role);
    match b.resource {
      case PlatformReceivables =>
      case ExternalSupportMessages =>
      case CustomerWalletLedger | CustomerWalletBalance | TaskerWalletLedger | TaskerWalletBalance
         | PlatformPayableBalance | PlatformLedger => MoneyIsGone(t, user, role, b.resource);
      case TaskerEarnings | ReferralAttributions | ReferralRewards => ProgrammeIsGone(t, user, role, b.resource);
      case Bookings | Reviews | Disputes | ConversationMessages | ConversationCalls =>
        WorkIsGone(t, user, role, b.resource);
      case PaymentTransactions | Withdrawals | EliteEvaluations | EliteTransitions =>
        OwnRowsAreGone(t, user, role, b.resource);
    }
  }

  /** The recheck after a purge passes exactly when neither residue is there. */
  lemma RecheckPassesWithoutResidues(t: Tables, user: int, role: Role)
    ensures Blockers(Purged(t, user, role), user, role) == [] <==>
            && ExternalMessages(t, user, role) == {}
            && (role.Tasker? ==> ConfirmedForOthers(t, user, role) == {})
  {
    var list := Blockers(Purged(t, user, role), user, role);
    var messages, receivables := ExternalMessages(t, user, role), ConfirmedForOthers(t, user, role);
    hide *;
    if list != [] {
      PurgeLeavesOnlyTwoResidues(t, user, role, list[0]);
    }
    if messages != {} {
      PurgeLeavesOnlyTwoResidues(t, user, role, Blocker(ExternalSupportMessages, |messages|));
    }
    if role.Tasker? && receivables != {} {
      PurgeLeavesOnlyTwoResidues(t, user, role, Blocker(PlatformReceivables, |receivables|));
    }
  }

  // ---- The safe mode ----

  lemma NoBlockersNoCounts(t: Tables, user: int, role: Role, resource: Resource)
    requires Blockers(t, user, role) == []
    ensures CountOf(t, user, role, resource) == 0
  {
    hide *;
    BlockersAreTheCounts(t, user, role, Blocker(resource, CountOf(t, user, role, resource)));
  }

  lemma {:induction false} NothingSelected(ledger: seq<Entry>, s: Selection)
    requires forall e :: e in ledger ==> !Selected(e, s)
    ensures Kept(ledger, s) == ledger && Removed(ledger, s) == []
  {
    if ledger != [] {
      NothingSelected(ledger[1..], s);
    }
  }

  lemma NoReferralsToCollect(t: Tables, user: int, role: Role)
    requires Blockers(t, user, role) == []
    ensures ReferralsOf(t.programme, user, role) == {}
  {
    NoBlockersNoCounts(t, user, role, ReferralAttributions);
    assert ReferralsAttributed(t.programme, user, role) == {};
    forall r ensures r !in ReferralsOf(t.programme, user, role) {
      assert r !in ReferralsAttributed(t.programme, user, role);
    }
  }

  /** With no blockers the closure is empty: nothing is collected but the user's conversations. */
  lemma NothingToCollect(t: Tables, user: int, role: Role)
    requires Blockers(t, user, role) == [] && Resolves(t) && -1 !in t.work.bookings
    ensures Collect(t, user, role) == Doomed({-1}, ConversationsOf(t.work, user, role), {}, {}, {}, {})
  {
    NoBlockersNoCounts(t, user, role, Bookings);
    NoReferralsToCollect(t, user, role);
    NoBlockersNoCounts(t, user, role, ReferralRewards);
    NoBlockersNoCounts(t, user, role, TaskerEarnings);
    NoBlockersNoCounts(t, user, role, PlatformReceivables);
    hide LedgersResolve, RecordsResolve, WorkResolves, Blockers, EntriesOf;
    var p, d := t.programme, Collect(t, user, role);
    assert d.bookings == {-1};
    assert d.referrals == {};
    assert RewardsTo(p, user, role) == {};
    forall r | r in p.rewards ensures !RewardDoomed(p.rewards[r], d.bookings, {}, user, role) {
      assert p.rewards[r].booking in t.work.bookings;
      assert r !in RewardsTo(p, user, role);
    }
    assert d.rewards == {};
    forall e | e in p.earnings ensures p.earnings[e].booking !in d.bookings {
      assert p.earnings[e].booking in t.work.bookings;
    }
    forall r | r in p.receivables ensures p.receivables[r].booking !in d.bookings {
      assert p.receivables[r].booking in t.work.bookings;
    }
    if role.Tasker? {
      assert EarningsOf(p, user) == {};
      assert forall e :: e in p.earnings ==> e !in EarningsOf(p, user);
      assert ReceivablesTouching(p, user) == {};
      assert forall r :: r in p.receivables ==> r !in ReceivablesTouching(p, user);
    }
    assert d.earnings == {};
    assert d.receivables == {};
  }

  lemma NothingToRemove(ledger: seq<Entry>, s: Selection, w: Work, user: int)
    requires -1 !in w.bookings && s.bookings == {-1} && s.rewards == s.earnings == s.receivables == {}
    requires s.owner == None || (s.owner == Some(user) && EntriesOf(ledger, user) == [])
    requires forall e :: e in ledger ==> RefersInto(e.booking, w.bookings)
    ensures Kept(ledger, s) == ledger && Removed(ledger, s) == []
  {
    hide Kept, Removed;
    forall e | e in ledger ensures !Selected(e, s) {
      RemovedMembers(ledger, Selection({}, {}, {}, {}, Some(user)), e);
    }
    NothingSelected(ledger, s);
  }

  lemma LedgersStay(t: Tables, user: int, role: Role)
    requires Blockers(t, user, role) == [] && Resolves(t) && -1 !in t.work.bookings
    ensures var d := Collect(t, user, role);
            && LedgersAfter(t.ledgers, d, user, role) == t.ledgers
            && Removed(t.ledgers.customer, CustomerEntries(d, user, role)) == []
            && Removed(t.ledgers.tasker, TaskerEntries(d, user, role)) == []
            && Removed(t.ledgers.platform, PlatformEntries(d, user, role)) == []
  {
    NoBlockersNoCounts(t, user, role, CustomerWalletLedger);
    NoBlockersNoCounts(t, user, role, TaskerWalletLedger);
    NoBlockersNoCounts(t, user, role, PlatformLedger);
    NothingToCollect(t, user, role);
    hide Collect, Blockers, EntriesOf, Kept, Removed;
    var d := Collect(t, user, role);
    NothingToRemove(t.ledgers.customer, CustomerEntries(d, user, role), t.work, user);
    NothingToRemove(t.ledgers.tasker, TaskerEntries(d, user, role), t.work, user);
    NothingToRemove(t.ledgers.platform, PlatformEntries(d, user, role), t.work, user);
  }

  /**
   * Where the safe mode would agree to a deletion, the purge has nothing to
   * force: every ledger, reward, earning, receivable, booking and booking record
   * stays, and no other user's balance moves.
   */
  lemma SafeDeletionNeedsNoPurge(t: Tables, user: int, role: Role)
    requires Blockers(t, user, role) == [] && Resolves(t) && Paired(t.work) && -1 !in t.work.bookings
    ensures var after := Purged(t, user, role);
            && after.ledgers == t.ledgers
            && after.balances == WithoutUser(t.balances, user, role)
            && after.programme == t.programme
            && after.records == t.records
            && after.work.bookings == t.work.bookings
    ensures forall u :: !Moved(t.ledgers, Collect(t, user, role), user, role, u)
  {
    LedgersStay(t, user, role);
    BalancesStay(t, user, role);
    NothingToCollect(t, user, role);
    PairedHasNoForeign(t, user, role);
    NoBlockersNoCounts(t, user, role, PaymentTransactions);
    var d := Collect(t, user, role);
    hide Collect, Blockers, LedgersAfter, BalancesReversed, OwnAfter, Kept, Removed, WithoutUser, LedgersResolve;
    ProgrammeStays(t, d);
    RecordsStay(t, d, user, role);
  }

  lemma BalancesStay(t: Tables, user: int, role: Role)
    requires Blockers(t, user, role) == [] && Resolves(t) && -1 !in t.work.bookings
    ensures BalancesReversed(t, Collect(t, user, role), user, role) == t.balances
  {
    LedgersStay(t, user, role);
    hide Collect, Blockers, Removed, Kept, Resolves, LedgersAfter;
    var b := BalancesReversed(t, Collect(t, user, role), user, role);
    assert b.customer == t.balances.customer;
    assert b.tasker == t.balances.tasker;
    assert b.platform == t.balances.platform;
  }

  lemma Unpointed(ref: Option<int>, bookings: map<int, Booking>, ids: set<int>)
    requires RefersInto(ref, bookings) && (forall b :: b in bookings ==> b !in ids)
    ensures !PointsInto(ref, ids)
  {
    match ref {
      case None =>
      case Some(b) => assert b in bookings;
    }
  }

  lemma ProgrammeStays(t: Tables, d: Doomed)
    requires ProgrammeResolves(t) && (forall b :: b in t.work.bookings ==> b !in d.bookings)
    requires d.referrals == d.rewards == d.earnings == d.receivables == {}
    ensures ProgrammeAfter(t.programme, d) == t.programme
  {
    var p := t.programme;
    forall r | r in p.referrals ensures !PointsInto(p.referrals[r].qualifyingBooking, d.bookings) {
      Unpointed(p.referrals[r].qualifyingBooking, t.work.bookings, d.bookings);
    }
    var after := ProgrammeAfter(p, d).referrals;
    assert after.Keys == p.referrals.Keys;
    assert forall r :: r in p.referrals ==> after[r] == p.referrals[r];
  }

  function PaymentsOf(r: Records, user: int): set<int> {
    set x | x in r.payments && r.payments[x].customer == user
  }

  lemma PaymentsStay(t: Tables, d: Doomed, user: int, role: Role)
    requires RecordsResolve(t) && (forall b :: b in t.work.bookings ==> b !in d.bookings)
    requires CountOf(t, user, role, PaymentTransactions) == 0
    ensures RecordsAfter(t.records, d, {}, user, role).payments == t.records.payments
  {
    var r := t.records;
    assert role.Customer? ==> PaymentsOf(r, user) == {};
    forall p | p in r.payments ensures !PaymentDoomed(r.payments[p], d, user, role) {
      Unpointed(r.payments[p].booking, t.work.bookings, d.bookings);
      assert role.Customer? ==> p !in PaymentsOf(r, user);
    }
  }

  lemma RecordsStay(t: Tables, d: Doomed, user: int, role: Role)
    requires RecordsResolve(t) && (forall b :: b in t.work.bookings ==> b !in d.bookings)
    requires CountOf(t, user, role, PaymentTransactions) == 0
    ensures RecordsAfter(t.records, d, {}, user, role) == t.records
  {
    PaymentsStay(t, d, user, role);
    hide CountOf;
    var r, after := t.records, RecordsAfter(t.records, d, {}, user, role);
    forall c | c in r.complaints ensures r.complaints[c].booking !in d.bookings {
      assert r.complaints[c].booking in t.work.bookings;
    }
    forall c | c in r.chargebacks ensures !PointsInto(r.chargebacks[c], d.bookings) {
      Unpointed(r.chargebacks[c], t.work.bookings, d.bookings);
    }
    forall p | p in r.proofs ensures r.proofs[p] !in d.bookings {
      assert r.proofs[p] in t.work.bookings;
    }
    forall v | v in r.reviews ensures r.reviews[v] !in d.bookings {
      assert r.reviews[v] in t.work.bookings;
    }
    forall c | c in r.calls ensures r.calls[c].booking !in d.bookings {
      assert r.calls[c].booking in t.work.bookings;
    }
    assert ComplaintsOn(r, d.bookings) == {};
    assert after.calls == r.calls;
  }

  // ---- The service ----

  datatype UserRole = Marketplace(side: Role) | Admin | SuperAdmin

  datatype User = User(role: UserRole, roles: seq<UserRole>, deleted: bool)

  datatype Actor = Actor(id: int, role: UserRole, mayPurge: bool)

  datatype Refusal = PurgePermissionRequired | SelfDeletionForbidden | NotFound | SuperAdminForbidden
    | FinalRole | Blocked(blockers: seq<Blocker>) | DatabaseRefused

  datatype Database = Database(tables: Tables, users: map<int, User>)

  predicate HasRole(users: map<int, User>, user: int, role: Role) {
    user in users && Marketplace(role) in users[user].roles
  }

  function WithoutRole(roles: seq<UserRole>, role: UserRole): seq<UserRole> {
    if roles == [] then []
    else if roles[0] == role then WithoutRole(roles[1..], role)
    else [roles[0]] + WithoutRole(roles[1..], role)
  }

  function MarketplaceRoles(roles: seq<UserRole>): nat {
    if roles == [] then 0 else (if roles[0].Marketplace? then 1 else 0) + MarketplaceRoles(roles[1..])
  }

  /** No second role in the marketplace. */
  predicate IsOnlyMarketplaceRole(roles: seq<UserRole>) {
    forall i, j :: 0 <= i < j < |roles| ==> !(roles[i].Marketplace? && roles[j].Marketplace?)
  }

  lemma {:induction false} RolesAreCounted(roles: seq<UserRole>)
    ensures MarketplaceRoles(roles) == 0 <==> forall i :: 0 <= i < |roles| ==> !roles[i].Marketplace?
    ensures MarketplaceRoles(roles) <= 1 <==> IsOnlyMarketplaceRole(roles)
  {
    if roles != [] {
      var rest := roles[1..];
      RolesAreCounted(rest);
      assert forall i :: 0 <= i < |rest| ==> rest[i] == roles[i + 1];
      if IsOnlyMarketplaceRole(rest) && (!roles[0].Marketplace? || MarketplaceRoles(rest) == 0) {
        forall i, j | 0 <= i < j < |roles| ensures !(roles[i].Marketplace? && roles[j].Marketplace?) {
          assert roles[j] == rest[j - 1];
          if i > 0 {
            assert roles[i] == rest[i - 1];
          }
        }
      } else if !IsOnlyMarketplaceRole(rest) {
        var i, j :| 0 <= i < j < |rest| && rest[i].Marketplace? && rest[j].Marketplace?;
        assert roles[i + 1].Marketplace? && roles[j + 1].Marketplace?;
      } else {
        var j :| 0 <= j < |rest| && rest[j].Marketplace?;
        assert roles[0].Marketplace? && roles[j + 1].Marketplace?;
      }
    }
  }

  /** The last deletions of a whole account: support messages, payout methods, and every balance row of the user. */
  function WholeAccountCleared(t: Tables, user: int): Tables {
    t.(supportMessages := map m | m in t.supportMessages && t.supportMessages[m].sender != user
                                  && t.supportMessages[m].ticketOwner != user :: t.supportMessages[m],
       own := t.own.(payoutMethods := t.own.payoutMethods - PayoutMethodsOf(t.own, user),
                     transitions := map x | x in t.own.transitions && t.own.transitions[x] != user
                                      :: t.own.transitions[x]),
       balances := Balances(t.balances.customer - {user}, t.balances.tasker - {user}, t.balances.platform - {user}))
  }

  /** The last deletions when only one of two roles goes. */
  function RoleCleared(t: Tables, user: int, role: Role): Tables {
    var o := t.own;
    t.(supportMessages := map m | m in t.supportMessages
                                  && !(t.supportMessages[m].ticketOwner == user
                                       && t.supportMessages[m].ticketRole == role)
                            :: t.supportMessages[m],
       own := if role.Customer? then o
              else o.(payoutMethods := o.payoutMethods - PayoutMethodsOf(o, user),
                      evaluations := map x | x in o.evaluations && o.evaluations[x] != user :: o.evaluations[x],
                      transitions := map x | x in o.transitions && o.transitions[x] != user :: o.transitions[x]),
       balances := WithoutUser(t.balances, user, role))
  }

  /** What the transaction works on once the purge, if there is one, is done. */
  function Prepared(t: Tables, user: int, role: Role, purge: bool): Tables {
    if purge then Purged(t, user, role) else t
  }

  predicate PurgeCommits(t: Tables, user: int, role: Role) {
    ForeignBookingsUnused(t, user, role) && PayoutsUnshared(t, user, role)
  }

  /** Whether the transaction, started on these tables, goes through. */
  predicate TransactionCommits(db: Database, user: int, role: Role, purge: bool, wholeAccount: bool, rowGoes: bool) {
    && HasRole(db.users, user, role)
    && (wholeAccount || WithoutRole(db.users[user].roles, Marketplace(role)) != [])
    && (purge ==> PurgeCommits(db.tables, user, role))
    && Blockers(Prepared(db.tables, user, role, purge), user, role) == []
    && (wholeAccount || role.Tasker? ==>
          PayoutMethodsFree(Prepared(db.tables, user, role, purge).own,
                            PayoutMethodsOf(Prepared(db.tables, user, role, purge).own, user)))
    && rowGoes
  }

  /** Everything checked before the transaction. */
  predicate Admitted(db: Database, actor: Actor, user: int, role: Role, purge: bool) {
    && (purge ==> actor.role.SuperAdmin? || actor.mayPurge)
    && actor.id != user
    && HasRole(db.users, user, role) && !db.users[user].deleted && !db.users[user].role.SuperAdmin?
    && (purge || Blockers(db.tables, user, role) == [])
  }

  /**
   * Who may delete whom, row by row: another person than the user, with the right
   * to purge if it is one, an account that has the role, is not deleted and is no
   * super administrator's, and, unless purging, without a single protected row.
   */
  lemma AdmittedMeans(db: Database, actor: Actor, user: int, role: Role, purge: bool)
    ensures Admitted(db, actor, user, role, purge) <==>
            && actor.id != user && (purge ==> actor.role == SuperAdmin || actor.mayPurge)
            && user in db.users && Marketplace(role) in db.users[user].roles
            && !db.users[user].deleted && db.users[user].role != SuperAdmin
            && (purge || forall resource :: CountOf(db.tables, user, role, resource) == 0)
  {
    hide CountOf, Blockers;
    NothingListedMeans(db.tables, user, role);
  }

  lemma NothingListedMeans(t: Tables, user: int, role: Role)
    ensures Blockers(t, user, role) == [] <==> forall resource :: CountOf(t, user, role, resource) == 0
  {
    hide CountOf, Blockers;
    var list := Blockers(t, user, role);
    if list != [] {
      BlockersAreTheCounts(t, user, role, list[0]);
    } else {
      forall resource ensures CountOf(t, user, role, resource) == 0 {
        NoBlockersNoCounts(t, user, role, resource);
      }
    }
  }

  /** The transaction commits exactly when the role is there and another one stays, and no protected row is left. */
  lemma CommitsExactlyWhen(db: Database, user: int, role: Role, purge: bool, wholeAccount: bool, rowGoes: bool)
    ensures var t := if purge then Purged(db.tables, user, role) else db.tables;
            TransactionCommits(db, user, role, purge, wholeAccount, rowGoes) <==>
            && user in db.users && Marketplace(role) in db.users[user].roles
            && (wholeAccount || exists other :: other in db.users[user].roles && other != Marketplace(role))
            && (purge ==> ForeignBookingsUnused(db.tables, user, role) && PayoutsUnshared(db.tables, user, role))
            && (forall resource :: CountOf(t, user, role, resource) == 0)
            && (wholeAccount || role == Tasker ==>
                  forall x :: x in t.own.taskerWithdrawals
                              && t.own.taskerWithdrawals[x].payoutMethod in t.own.payoutMethods
                    ==> t.own.payoutMethods[t.own.taskerWithdrawals[x].payoutMethod] != user)
            && rowGoes
  {
    hide CountOf, Blockers, Purged, ForeignBookingsUnused, PayoutsUnshared, WithoutRole;
    NothingListedMeans(Prepared(db.tables, user, role, purge), user, role);
    if HasRole(db.users, user, role) {
      OtherRoleIsLeft(db.users[user].roles, Marketplace(role));
    }
  }

  lemma OtherRoleIsLeft(roles: seq<UserRole>, role: UserRole)
    ensures WithoutRole(roles, role) != [] <==> exists other :: other in roles && other != role
  {
    RoleIsGone(roles, role);
    var left := WithoutRole(roles, role);
    if left != [] {
      assert left[0] in left;
    }
  }

  /**
   * What goes with a whole account, beyond the purge: everything written in
   * the user's tickets or by the user, and money rows.
   */
  lemma RowsLeftWithoutTheAccount(t: Tables, user: int)
    ensures var after := WholeAccountCleared(t, user);
            && after.supportMessages ==
               (map m | m in t.supportMessages
                        && !(t.supportMessages[m].sender == user || t.supportMessages[m].ticketOwner == user)
                  :: t.supportMessages[m])
            && after.own.payoutMethods ==
               (map x | x in t.own.payoutMethods && t.own.payoutMethods[x] != user :: t.own.payoutMethods[x])
            && after.own.transitions ==
               (map x | x in t.own.transitions && t.own.transitions[x] != user :: t.own.transitions[x])
            && after.balances.customer == (map u | u in t.balances.customer && u != user :: t.balances.customer[u])
            && after.balances.tasker == (map u | u in t.balances.tasker && u != user :: t.balances.tasker[u])
            && after.balances.platform == (map u | u in t.balances.platform && u != user :: t.balances.platform[u])
            && after == t.(supportMessages := after.supportMessages, balances := after.balances,
                           own := t.own.(payoutMethods := after.own.payoutMethods,
                                         transitions := after.own.transitions))
  {
  }

  /** What goes with one of two roles: the user's tickets in it, and the money and elite rows of the role. */
  lemma RowsLeftWithoutTheRole(t: Tables, user: int, role: Role)
    ensures var after := RoleCleared(t, user, role);
            && after.supportMessages ==
               (map m | m in t.supportMessages
                        && (t.supportMessages[m].ticketOwner != user || t.supportMessages[m].ticketRole != role)
                  :: t.supportMessages[m])
            && after.own.payoutMethods ==
               (map x | x in t.own.payoutMethods && (role == Customer || t.own.payoutMethods[x] != user)
                  :: t.own.payoutMethods[x])
            && after.own.evaluations ==
               (map x | x in t.own.evaluations && (role == Customer || t.own.evaluations[x] != user)
                  :: t.own.evaluations[x])
            && after.own.transitions ==
               (map x | x in t.own.transitions && (role == Customer || t.own.transitions[x] != user)
                  :: t.own.transitions[x])
            && after == t.(supportMessages := after.supportMessages, balances := after.balances,
                           own := t.own.(payoutMethods := after.own.payoutMethods,
                                         evaluations := after.own.evaluations, transitions := after.own.transitions))
    ensures var before, after := t.balances, RoleCleared(t, user, role).balances;
            && after.customer ==
               (map u | u in before.customer && (role == Tasker || u != user) :: before.customer[u])
            && after.tasker == (map u | u in before.tasker && (role == Customer || u != user) :: before.tasker[u])
            && after.platform ==
               (map u | u in before.platform && (role == Customer || u != user) :: before.platform[u])
  {
  }

  /** Exactly the other roles are left, and the primary role is one of them if it was one of the roles before. */
  ghost predicate KeepsOtherRoles(before: User, after: User, gone: UserRole) {
    && (forall other :: other in after.roles <==> other in before.roles && other != gone)
    && (before.role in before.roles ==> after.role in after.roles)
    && (before.role != gone ==> after.role == before.role)
    && after.deleted == before.deleted
  }

  class AccountDeletionService {
    var db: Database

    constructor (db: Database)
      ensures this.db == db
    {
      this.db := db;
    }

    /**
     * Deletes an account, or one of its two marketplace roles. `meanwhile` is what
     * others have made of the database by the time the transaction starts, and
     * `rowGoes` whether the last statement, the one on the user or profile row, is
     * let through. Either nothing is changed, or at the moment of deletion no
     * blocker was left and the user lost the role.
     */
    method PermanentlyDelete(actor: Actor, user: int, role: Role, purge: bool, meanwhile: Database, rowGoes: bool)
      returns (r: Result<seq<int>, Refusal>)
      modifies this
      ensures r.Success? <==>
        && Admitted(old(db), actor, user, role, purge)
        && TransactionCommits(meanwhile, user, role, purge, MarketplaceRoles(old(db).users[user].roles) <= 1, rowGoes)
      ensures r.Failure? ==> db == old(db) || db == meanwhile
      ensures r.Success? ==>
        && !HasRole(db.users, user, role)
        && (MarketplaceRoles(old(db).users[user].roles) <= 1 <==> user !in db.users)
        && (IsOnlyMarketplaceRole(old(db).users[user].roles) <==> user !in db.users)
        && (user in db.users ==> KeepsOtherRoles(meanwhile.users[user], db.users[user], Marketplace(role)))
        && (forall u :: u != user ==> (u in db.users <==> u in meanwhile.users))
        && (forall u :: u != user && u in db.users ==> db.users[u] == meanwhile.users[u])
        && db.tables == (var t := Prepared(meanwhile.tables, user, role, purge);
                         if MarketplaceRoles(old(db).users[user].roles) <= 1 then WholeAccountCleared(t, user)
                         else RoleCleared(t, user, role))
      ensures r.Success? && purge ==> Ascending(r.value) && forall u :: u in r.value <==>
        Moved(meanwhile.tables.ledgers, Collect(meanwhile.tables, user, role), user, role, u)
    {
      hide Blockers, Purged, PurgeCommits, Collect, Moved, WholeAccountCleared, RoleCleared, PayoutMethodsFree;
      if purge && !actor.role.SuperAdmin? && !actor.mayPurge {
        return Failure(PurgePermissionRequired);
      }
      if actor.id == user {
        return Failure(SelfDeletionForbidden);
      }
      if !HasRole(db.users, user, role) || db.users[user].deleted {
        return Failure(NotFound);
      }
      if db.users[user].role.SuperAdmin? {
        return Failure(SuperAdminForbidden);
      }
      if !purge && Blockers(db.tables, user, role) != [] {
        return Failure(Blocked(Blockers(db.tables, user, role)));
      }
      var wholeAccount := MarketplaceRoles(db.users[user].roles) <= 1;
      RolesAreCounted(db.users[user].roles);
      hide IsOnlyMarketplaceRole;
      db := meanwhile;
      r := RunTransaction(user, role, purge, wholeAccount, rowGoes);
    }

    /** One transaction: the purge, the recheck and the last deletions, or nothing at all. */
    method RunTransaction(user: int, role: Role, purge: bool, wholeAccount: bool, rowGoes: bool)
      returns (r: Result<seq<int>, Refusal>)
      modifies this
      ensures r.Success? <==> TransactionCommits(old(db), user, role, purge, wholeAccount, rowGoes)
      ensures r.Failure? && r.error.Blocked? ==>
        r.error.blockers == Blockers(Prepared(old(db).tables, user, role, purge), user, role) != []
      ensures r.Failure? ==> db == old(db)
      ensures r.Success? ==>
        && !HasRole(db.users, user, role)
        && (wholeAccount <==> user !in db.users)
        && (!wholeAccount ==> KeepsOtherRoles(old(db).users[user], db.users[user], Marketplace(role)))
        && (forall u :: u != user ==> (u in db.users <==> u in old(db).users))
        && (forall u :: u != user && u in db.users ==> db.users[u] == old(db).users[u])
        && db.tables == (var t := Prepared(old(db).tables, user, role, purge);
                         if wholeAccount then WholeAccountCleared(t, user) else RoleCleared(t, user, role))
      ensures r.Success? && purge ==> Ascending(r.value) && forall u :: u in r.value <==>
        Moved(old(db).tables.ledgers, Collect(old(db).tables, user, role), user, role, u)
    {
      hide Blockers, Purged, ForeignBookingsUnused, PayoutsUnshared, Collect, Moved, WholeAccountCleared, RoleCleared,
           PayoutMethodsFree, WithoutRole, PayoutMethodsOf, Counts, Ascending;
      if !HasRole(db.users, user, role) {
        return Failure(NotFound);
      }
      var remaining := WithoutRole(db.users[user].roles, Marketplace(role));
      RoleIsGone(db.users[user].roles, Marketplace(role));
      if !wholeAccount && remaining == [] {
        return Failure(FinalRole);
      }
      var tx := new Transaction(db.tables);
      var rebalanced := [];
      if purge {
        var summary := tx.PurgeMarketplaceRoleData(user, role);
        if tx.aborted {
          return Failure(DatabaseRefused);
        }
        rebalanced := summary.counterpartiesRebalanced;
      }
      var t := tx.Snapshot();
      var rechecked := Blockers(t, user, role);
      if rechecked != [] {
        return Failure(Blocked(rechecked));
      }
      if (wholeAccount || role.Tasker?) && !PayoutMethodsFree(t.own, PayoutMethodsOf(t.own, user)) {
        return Failure(DatabaseRefused);
      }
      if !rowGoes {
        return Failure(DatabaseRefused);
      }
      if wholeAccount {
        db := Database(WholeAccountCleared(t, user), db.users - {user});
      } else {
        var primary := if db.users[user].role == Marketplace(role) then remaining[0] else db.users[user].role;
        db := Database(RoleCleared(t, user, role), db.users[user := User(primary, remaining, db.users[user].deleted)]);
      }
      return Success(rebalanced);
    }
  }

  lemma {:induction false} RoleIsGone(roles: seq<UserRole>, role: UserRole)
    ensures role !in WithoutRole(roles, role)
    ensures forall other :: other != role ==> (other in WithoutRole(roles, role) <==> other in roles)
  {
    if roles != [] {
      RoleIsGone(roles[1..], role);
    }
  }
}
