/**
 * The forced purge of one marketplace role of one user: the rows to remove are
 * collected first, the ledger sums among them are taken back from whoever's
 * balance they moved, and the rows are then deleted statement by statement in
 * an order that the foreign keys allow. A statement that a foreign key refuses
 * aborts the whole transaction.
 */
module AccountPurge {
  import opened Common
  import opened IdLists

  // ---- Rows ----

  datatype Role = Customer | Tasker

  /** Money is counted in cents. Customer and platform balances use the first column only. */
  datatype Balance = Balance(available: int, pending: int)

  const ZERO: Balance := Balance(0, 0)

  function Plus(a: Balance, b: Balance): Balance {
    Balance(a.available + b.available, a.pending + b.pending)
  }

  function Minus(a: Balance, b: Balance): Balance {
    Balance(a.available - b.available, a.pending - b.pending)
  }

  datatype Entry = Entry(owner: int, delta: Balance, booking: Option<int>, reward: Option<int>,
                         earning: Option<int>, receivable: Option<int>, withdrawal: Option<int>)

  datatype Booking = Booking(customer: int, tasker: int, conversation: int)
  datatype Conversation = Conversation(customer: int, tasker: int)
  datatype Message = Message(conversation: int, booking: Option<int>, sender: int, hasAttachments: bool)

  datatype Referral = Referral(program: Role, referrer: int, referred: int, qualifyingBooking: Option<int>)
  datatype Reward = Reward(referral: int, recipient: int, recipientRole: Role, booking: int)
  datatype Earning = Earning(booking: int, tasker: int)
  datatype Receivable = Receivable(booking: int, tasker: int, confirmedBy: int)

  datatype Payment = Payment(customer: int, booking: Option<int>)
  datatype Complaint = Complaint(booking: int, filedBy: int)
  datatype Call = Call(booking: int, initiator: int, recipient: int)
  datatype TaskerWithdrawal = TaskerWithdrawal(tasker: int, payoutMethod: int)
  datatype SupportMessage = SupportMessage(sender: int, ticketOwner: int, ticketRole: Role)

  // ---- Tables ----

  datatype Ledgers = Ledgers(customer: seq<Entry>, tasker: seq<Entry>, platform: seq<Entry>)

  /** Balances by user: customer wallets, tasker wallets, platform accounts. */
  datatype Balances = Balances(customer: map<int, Balance>, tasker: map<int, Balance>, platform: map<int, Balance>)

  datatype Programme = Programme(referrals: map<int, Referral>, rewards: map<int, Reward>,
                                 earnings: map<int, Earning>, receivables: map<int, Receivable>)

  /** Cash refunds and evidence point at a complaint; charge-backs, proofs and reviews at a booking. */
  datatype Records = Records(payments: map<int, Payment>, complaints: map<int, Complaint>, cashRefunds: map<int, int>,
                             evidence: map<int, int>, chargebacks: map<int, Option<int>>, proofs: map<int, int>,
                             reviews: map<int, int>, calls: map<int, Call>)

  datatype Work = Work(bookings: map<int, Booking>, conversations: map<int, Conversation>, messages: map<int, Message>)

  /** Rows of one user: withdrawals and what they are paid to, and elite history by tasker. */
  datatype Own = Own(customerWithdrawals: map<int, int>, taskerWithdrawals: map<int, TaskerWithdrawal>,
                     payoutMethods: map<int, int>, evaluations: map<int, int>, transitions: map<int, int>)

  datatype Tables = Tables(ledgers: Ledgers, balances: Balances, programme: Programme, records: Records,
                           work: Work, own: Own, supportMessages: map<int, SupportMessage>)

  // ---- Selecting rows ----

  predicate PointsInto(ref: Option<int>, ids: set<int>) {
    ref.Some? && ref.value in ids
  }

  function SideOf(b: Booking, role: Role): int {
    if role.Customer? then b.customer else b.tasker
  }

  function PartyOf(c: Conversation, role: Role): int {
    if role.Customer? then c.customer else c.tasker
  }

  /** The id list of the query; an empty one is replaced by an id that no booking has. */
  function InBookings(w: Work, user: int, role: Role): set<int> {
    var ids := set b | b in w.bookings && SideOf(w.bookings[b], role) == user;
    if ids == {} then {-1} else ids
  }

  function ConversationsOf(w: Work, user: int, role: Role): set<int> {
    set c | c in w.conversations && PartyOf(w.conversations[c], role) == user
  }

  function ReferralsOf(p: Programme, user: int, role: Role): set<int> {
    set r | r in p.referrals && p.referrals[r].program == role
            && (p.referrals[r].referrer == user || p.referrals[r].referred == user)
  }

  /** Everything the purge decides to delete before it changes anything. */
  datatype Doomed = Doomed(bookings: set<int>, conversations: set<int>, referrals: set<int>, rewards: set<int>,
                           earnings: set<int>, receivables: set<int>)

  predicate RewardDoomed(r: Reward, bookings: set<int>, referrals: set<int>, user: int, role: Role) {
    r.booking in bookings || (r.recipient == user && r.recipientRole == role) || r.referral in referrals
  }

  function Collect(t: Tables, user: int, role: Role): Doomed {
    var p := t.programme;
    var bookings := InBookings(t.work, user, role);
    var referrals := ReferralsOf(p, user, role);
    Doomed(
      bookings,
      ConversationsOf(t.work, user, role),
      referrals,
      set r | r in p.rewards && RewardDoomed(p.rewards[r], bookings, referrals, user, role),
      set e | e in p.earnings && (p.earnings[e].booking in bookings || (role.Tasker? && p.earnings[e].tasker == user)),
      set r | r in p.receivables
              && (p.receivables[r].booking in bookings || (role.Tasker? && p.receivables[r].tasker == user)))
  }

  /** Which entries of a ledger go: those on a doomed row, and all of one owner if one is named. */
  datatype Selection = Selection(bookings: set<int>, rewards: set<int>, earnings: set<int>, receivables: set<int>,
                                 owner: Option<int>)

  predicate Selected(e: Entry, s: Selection) {
    || PointsInto(e.booking, s.bookings)
    || PointsInto(e.reward, s.rewards)
    || PointsInto(e.earning, s.earnings)
    || PointsInto(e.receivable, s.receivables)
    || Some(e.owner) == s.owner
  }

  function CustomerEntries(d: Doomed, user: int, role: Role): Selection {
    Selection(d.bookings, d.rewards, {}, {}, if role.Customer? then Some(user) else None)
  }

  function TaskerEntries(d: Doomed, user: int, role: Role): Selection {
    Selection(d.bookings, d.rewards, d.earnings, {}, if role.Tasker? then Some(user) else None)
  }

  function PlatformEntries(d: Doomed, user: int, role: Role): Selection {
    Selection(d.bookings, {}, d.earnings, d.receivables, if role.Tasker? then Some(user) else None)
  }

  function Kept(ledger: seq<Entry>, s: Selection): seq<Entry> {
    if ledger == [] then []
    else if Selected(ledger[0], s) then Kept(ledger[1..], s)
    else [ledger[0]] + Kept(ledger[1..], s)
  }

  function Removed(ledger: seq<Entry>, s: Selection): seq<Entry> {
    if ledger == [] then []
    else if Selected(ledger[0], s) then [ledger[0]] + Removed(ledger[1..], s)
    else Removed(ledger[1..], s)
  }

  function Share(e: Entry, owner: int): Balance {
    if e.owner == owner then e.delta else ZERO
  }

  /** The sum of one owner's entries. */
  function Total(ledger: seq<Entry>, owner: int): Balance {
    if ledger == [] then ZERO
    else Plus(Share(ledger[0], owner), Total(ledger[1..], owner))
  }

  lemma TotalOfCons(e: Entry, rest: seq<Entry>, owner: int)
    ensures Total([e] + rest, owner) == Plus(Share(e, owner), Total(rest, owner))
  {
    assert ([e] + rest)[1..] == rest;
  }

  lemma TotalOfKept(ledger: seq<Entry>, s: Selection, owner: int)
    requires ledger != []
    ensures Total(Kept(ledger, s), owner) ==
            Plus(if Selected(ledger[0], s) then ZERO else Share(ledger[0], owner), Total(Kept(ledger[1..], s), owner))
  {
    hide Selected, Total;
    TotalOfCons(ledger[0], Kept(ledger[1..], s), owner);
  }

  lemma TotalOfRemoved(ledger: seq<Entry>, s: Selection, owner: int)
    requires ledger != []
    ensures Total(Removed(ledger, s), owner) ==
            Plus(if Selected(ledger[0], s) then Share(ledger[0], owner) else ZERO,
                 Total(Removed(ledger[1..], s), owner))
  {
    hide Selected, Total;
    TotalOfCons(ledger[0], Removed(ledger[1..], s), owner);
  }

  lemma TotalStep(ledger: seq<Entry>, owner: int)
    requires ledger != []
    ensures Total(ledger, owner) == Plus(Share(ledger[0], owner), Total(ledger[1..], owner))
  {
  }

  lemma PlusRearranged(x: Balance, a: Balance, b: Balance)
    ensures Plus(Plus(x, a), Plus(ZERO, b)) == Plus(x, Plus(a, b)) == Plus(Plus(ZERO, a), Plus(x, b))
  {
  }

  lemma NothingTotals(ledger: seq<Entry>, s: Selection, owner: int)
    requires ledger == []
    ensures Plus(Total(Kept(ledger, s), owner), Total(Removed(ledger, s), owner)) == Total(ledger, owner)
  {
  }

  /** What is kept and what is removed add up to what there was, for every owner. */
  lemma {:induction false} TotalSplits(ledger: seq<Entry>, s: Selection, owner: int)
    ensures Plus(Total(Kept(ledger, s), owner), Total(Removed(ledger, s), owner)) == Total(ledger, owner)
  {
    hide Selected, Total, Kept, Removed, Share, Plus;
    if ledger == [] {
      NothingTotals(ledger, s, owner);
    } else {
      TotalSplits(ledger[1..], s, owner);
      TotalOfKept(ledger, s, owner);
      TotalOfRemoved(ledger, s, owner);
      TotalStep(ledger, owner);
      PlusRearranged(Share(ledger[0], owner), Total(Kept(ledger[1..], s), owner),
                     Total(Removed(ledger[1..], s), owner));
    }
  }

  lemma {:induction false} KeptMembers(ledger: seq<Entry>, s: Selection, e: Entry)
    ensures e in Kept(ledger, s) <==> e in ledger && !Selected(e, s)
  {
    if ledger != [] {
      KeptMembers(ledger[1..], s, e);
    }
  }

  lemma {:induction false} RemovedMembers(ledger: seq<Entry>, s: Selection, e: Entry)
    ensures e in Removed(ledger, s) <==> e in ledger && Selected(e, s)
  {
    if ledger != [] {
      RemovedMembers(ledger[1..], s, e);
    }
  }

  lemma {:induction false} NoEntriesNoTotal(ledger: seq<Entry>, owner: int)
    requires forall e :: e in ledger ==> e.owner != owner
    ensures Total(ledger, owner) == ZERO
  {
    if ledger != [] {
      NoEntriesNoTotal(ledger[1..], owner);
    }
  }

  // ---- Reversing a ledger ----

  /**
   * Takes the sum of the selected entries back from each owner that has a
   * balance row, group by group, and notes the other users it touched.
   */
  method ReverseLedger(ledger: seq<Entry>, s: Selection, balances: map<int, Balance>, user: int, noted: set<int>)
    returns (kept: seq<Entry>, left: map<int, Balance>, rebalanced: set<int>)
    ensures kept == Kept(ledger, s)
    ensures left.Keys == balances.Keys
    ensures forall u :: u in balances ==> Plus(left[u], Total(Removed(ledger, s), u)) == balances[u]
    ensures forall u :: u in rebalanced <==> u in noted || (u != user && Total(Removed(ledger, s), u) != ZERO)
  {
    hide Kept, Removed, Total;
    kept, left, rebalanced := Kept(ledger, s), balances, noted;
    var removed := Removed(ledger, s);
    var owners := set e | e in removed :: e.owner;
    var waiting := owners;
    while waiting != {}
      invariant waiting <= owners
      invariant left.Keys == balances.Keys
      invariant forall u :: u in balances && u in owners - waiting ==> Plus(left[u], Total(removed, u)) == balances[u]
      invariant forall u :: u in balances && u !in owners - waiting ==> left[u] == balances[u]
      invariant forall u :: u in rebalanced <==>
        u in noted || (u in owners - waiting && u != user && Total(removed, u) != ZERO)
      decreases waiting
    {
      var owner :| owner in waiting;
      var delta := Total(removed, owner);
      if delta.available != 0 || delta.pending != 0 {
        if owner in left {
          left := left[owner := Minus(left[owner], delta)];
        }
        if owner != user {
          rebalanced := rebalanced + {owner};
        }
      }
      waiting := waiting - {owner};
    }
    forall u | u !in owners ensures Total(removed, u) == ZERO {
      NoEntriesNoTotal(removed, u);
    }
  }

  // ---- What the purge leaves ----

  /** Bookings of others that sit in a doomed conversation and fall with it. */
  function Foreign(w: Work, d: Doomed): set<int> {
    set b | b in w.bookings && b !in d.bookings && w.bookings[b].conversation in d.conversations
  }

  function LedgersAfter(l: Ledgers, d: Doomed, user: int, role: Role): Ledgers {
    Ledgers(Kept(l.customer, CustomerEntries(d, user, role)),
            Kept(l.tasker, TaskerEntries(d, user, role)),
            Kept(l.platform, PlatformEntries(d, user, role)))
  }

  function TakenBack(balances: map<int, Balance>, removed: seq<Entry>): map<int, Balance> {
    map u | u in balances :: Minus(balances[u], Total(removed, u))
  }

  /** All balances, with the removed sums taken back; those of the user are still there. */
  function BalancesReversed(t: Tables, d: Doomed, user: int, role: Role): Balances {
    Balances(TakenBack(t.balances.customer, Removed(t.ledgers.customer, CustomerEntries(d, user, role))),
             TakenBack(t.balances.tasker, Removed(t.ledgers.tasker, TaskerEntries(d, user, role))),
             TakenBack(t.balances.platform, Removed(t.ledgers.platform, PlatformEntries(d, user, role))))
  }

  function WithoutUser(b: Balances, user: int, role: Role): Balances {
    if role.Customer? then b.(customer := b.customer - {user})
    else b.(tasker := b.tasker - {user}, platform := b.platform - {user})
  }

  function Unlinked(ref: Option<int>, ids: set<int>): Option<int> {
    if PointsInto(ref, ids) then None else ref
  }

  function ProgrammeAfter(p: Programme, d: Doomed): Programme {
    Programme(
      map r | r in p.referrals && r !in d.referrals ::
        p.referrals[r].(qualifyingBooking := Unlinked(p.referrals[r].qualifyingBooking, d.bookings)),
      p.rewards - d.rewards, p.earnings - d.earnings, p.receivables - d.receivables)
  }

  function ComplaintsOn(r: Records, bookings: set<int>): set<int> {
    set c | c in r.complaints && r.complaints[c].booking in bookings
  }

  function ReviewsOn(r: Records, bookings: set<int>): set<int> {
    set v | v in r.reviews && r.reviews[v] in bookings
  }

  function PaymentsOf(r: Records, d: Doomed, user: int, role: Role): set<int> {
    set p | p in r.payments && PaymentDoomed(r.payments[p], d, user, role)
  }

  predicate PaymentDoomed(p: Payment, d: Doomed, user: int, role: Role) {
    PointsInto(p.booking, d.bookings) || (role.Customer? && p.customer == user)
  }

  function RecordsAfter(r: Records, d: Doomed, foreign: set<int>, user: int, role: Role): Records {
    var gone := ComplaintsOn(r, d.bookings);
    Records(
      map p | p in r.payments && !PaymentDoomed(r.payments[p], d, user, role) :: r.payments[p],
      r.complaints - gone,
      map c | c in r.cashRefunds && r.cashRefunds[c] !in gone :: r.cashRefunds[c],
      map e | e in r.evidence && r.evidence[e] !in gone :: r.evidence[e],
      map c | c in r.chargebacks && !PointsInto(r.chargebacks[c], d.bookings) :: r.chargebacks[c],
      map p | p in r.proofs && r.proofs[p] !in d.bookings :: r.proofs[p],
      map v | v in r.reviews && r.reviews[v] !in d.bookings :: r.reviews[v],
      map c | c in r.calls && r.calls[c].booking !in d.bookings + foreign :: r.calls[c])
  }

  function WorkAfter(w: Work, d: Doomed): Work {
    Work(
      w.bookings - d.bookings - Foreign(w, d),
      w.conversations - d.conversations,
      map m | m in w.messages && w.messages[m].conversation !in d.conversations ::
        w.messages[m].(booking := Unlinked(w.messages[m].booking, d.bookings + Foreign(w, d))))
  }

  function OwnAfter(o: Own, user: int, role: Role): Own {
    if role.Customer? then
      o.(customerWithdrawals := map x | x in o.customerWithdrawals && o.customerWithdrawals[x] != user
                                  :: o.customerWithdrawals[x])
    else
      o.(taskerWithdrawals := map x | x in o.taskerWithdrawals && o.taskerWithdrawals[x].tasker != user
                                :: o.taskerWithdrawals[x],
         payoutMethods := map x | x in o.payoutMethods && o.payoutMethods[x] != user :: o.payoutMethods[x],
         evaluations := map x | x in o.evaluations && o.evaluations[x] != user :: o.evaluations[x],
         transitions := map x | x in o.transitions && o.transitions[x] != user :: o.transitions[x])
  }

  function Purged(t: Tables, user: int, role: Role): Tables {
    var d := Collect(t, user, role);
    Tables(
      LedgersAfter(t.ledgers, d, user, role),
      WithoutUser(BalancesReversed(t, d, user, role), user, role),
      ProgrammeAfter(t.programme, d),
      RecordsAfter(t.records, d, Foreign(t.work, d), user, role),
      WorkAfter(t.work, d),
      OwnAfter(t.own, user, role),
      t.supportMessages)
  }

  // ---- Foreign keys that refuse a deletion ----

  predicate RewardsFree(l: Ledgers, ids: set<int>) {
    && (forall e :: e in l.customer ==> !PointsInto(e.reward, ids))
    && (forall e :: e in l.tasker ==> !PointsInto(e.reward, ids))
  }

  predicate ReferralsFree(p: Programme, ids: set<int>) {
    forall r :: r in p.rewards ==> p.rewards[r].referral !in ids
  }

  predicate ReceivablesFree(l: Ledgers, ids: set<int>) {
    forall e :: e in l.platform ==> !PointsInto(e.receivable, ids)
  }

  predicate EarningsFree(l: Ledgers, ids: set<int>) {
    && (forall e :: e in l.tasker ==> !PointsInto(e.earning, ids))
    && (forall e :: e in l.platform ==> !PointsInto(e.earning, ids))
  }

  predicate ComplaintsFree(r: Records, ids: set<int>) {
    forall c :: c in r.cashRefunds ==> r.cashRefunds[c] !in ids
  }

  predicate UnusedByLedgers(l: Ledgers, bookings: set<int>) {
    && (forall e :: e in l.customer ==> !PointsInto(e.booking, bookings))
    && (forall e :: e in l.tasker ==> !PointsInto(e.booking, bookings))
    && (forall e :: e in l.platform ==> !PointsInto(e.booking, bookings))
  }

  predicate UnusedByProgramme(p: Programme, bookings: set<int>) {
    && (forall r :: r in p.rewards ==> p.rewards[r].booking !in bookings)
    && (forall r :: r in p.referrals ==> !PointsInto(p.referrals[r].qualifyingBooking, bookings))
    && (forall e :: e in p.earnings ==> p.earnings[e].booking !in bookings)
    && (forall r :: r in p.receivables ==> p.receivables[r].booking !in bookings)
  }

  predicate UnusedByRecords(r: Records, bookings: set<int>) {
    && (forall p :: p in r.payments ==> !PointsInto(r.payments[p].booking, bookings))
    && (forall c :: c in r.complaints ==> r.complaints[c].booking !in bookings)
    && (forall c :: c in r.chargebacks ==> !PointsInto(r.chargebacks[c], bookings))
    && (forall p :: p in r.proofs ==> r.proofs[p] !in bookings)
    && (forall v :: v in r.reviews ==> r.reviews[v] !in bookings)
  }

  predicate BookingsFree(l: Ledgers, p: Programme, r: Records, ids: set<int>) {
    UnusedByLedgers(l, ids) && UnusedByProgramme(p, ids) && UnusedByRecords(r, ids)
  }

  /** Some row that refuses the deletion of this booking refers to it. */
  ghost predicate IsReferredTo(l: Ledgers, p: Programme, r: Records, booking: int) {
    || (exists e :: (e in l.customer || e in l.tasker || e in l.platform) && e.booking == Some(booking))
    || (exists x :: x in p.rewards && p.rewards[x].booking == booking)
    || (exists x :: x in p.referrals && p.referrals[x].qualifyingBooking == Some(booking))
    || (exists x :: x in p.earnings && p.earnings[x].booking == booking)
    || (exists x :: x in p.receivables && p.receivables[x].booking == booking)
    || (exists x :: x in r.payments && r.payments[x].booking == Some(booking))
    || (exists x :: x in r.complaints && r.complaints[x].booking == booking)
    || (exists x :: x in r.chargebacks && r.chargebacks[x] == Some(booking))
    || (exists x :: x in r.proofs && r.proofs[x] == booking)
    || (exists x :: x in r.reviews && r.reviews[x] == booking)
  }

  /** The foreign keys let bookings go exactly when none of them is referred to. */
  lemma FreeMeansNotReferredTo(l: Ledgers, p: Programme, r: Records, ids: set<int>)
    ensures BookingsFree(l, p, r, ids) <==> forall b :: b in ids ==> !IsReferredTo(l, p, r, b)
  {
    if forall b :: b in ids ==> !IsReferredTo(l, p, r, b) {
      ReferrersAreNone(l, p, r, ids);
    }
  }

  lemma ReferrersAreNone(l: Ledgers, p: Programme, r: Records, ids: set<int>)
    requires forall b :: b in ids ==> !IsReferredTo(l, p, r, b)
    ensures BookingsFree(l, p, r, ids)
  {
    forall e | e in l.customer || e in l.tasker || e in l.platform ensures !PointsInto(e.booking, ids) {
      match e.booking { case Some(b) => assert b in ids ==> !IsReferredTo(l, p, r, b); case None => }
    }
    forall x | x in p.rewards ensures p.rewards[x].booking !in ids {
      assert IsReferredTo(l, p, r, p.rewards[x].booking);
    }
    forall x | x in p.referrals ensures !PointsInto(p.referrals[x].qualifyingBooking, ids) {
      match p.referrals[x].qualifyingBooking { case Some(b) => assert IsReferredTo(l, p, r, b); case None => }
    }
    forall x | x in p.earnings ensures p.earnings[x].booking !in ids {
      assert IsReferredTo(l, p, r, p.earnings[x].booking);
    }
    forall x | x in p.receivables ensures p.receivables[x].booking !in ids {
      assert IsReferredTo(l, p, r, p.receivables[x].booking);
    }
    ReferringRecordsAreNone(l, p, r, ids);
  }

  lemma ReferringRecordsAreNone(l: Ledgers, p: Programme, r: Records, ids: set<int>)
    requires forall b :: b in ids ==> !IsReferredTo(l, p, r, b)
    ensures UnusedByRecords(r, ids)
  {
    forall x | x in r.payments ensures !PointsInto(r.payments[x].booking, ids) {
      match r.payments[x].booking { case Some(b) => assert IsReferredTo(l, p, r, b); case None => }
    }
    forall x | x in r.complaints ensures r.complaints[x].booking !in ids {
      assert IsReferredTo(l, p, r, r.complaints[x].booking);
    }
    forall x | x in r.chargebacks ensures !PointsInto(r.chargebacks[x], ids) {
      match r.chargebacks[x] { case Some(b) => assert IsReferredTo(l, p, r, b); case None => }
    }
    forall x | x in r.proofs ensures r.proofs[x] !in ids {
      assert IsReferredTo(l, p, r, r.proofs[x]);
    }
    forall x | x in r.reviews ensures r.reviews[x] !in ids {
      assert IsReferredTo(l, p, r, r.reviews[x]);
    }
  }

  function WithdrawalsOf(o: Own, user: int, role: Role): set<int> {
    if role.Customer? then set x | x in o.customerWithdrawals && o.customerWithdrawals[x] == user
    else set x | x in o.taskerWithdrawals && o.taskerWithdrawals[x].tasker == user
  }

  function WithdrawalIds(o: Own, role: Role): set<int> {
    if role.Customer? then o.customerWithdrawals.Keys else o.taskerWithdrawals.Keys
  }

  lemma WithdrawalsAreRows(o: Own, user: int, role: Role)
    ensures |WithdrawalsOf(o, user, role) * WithdrawalIds(o, role)| == |WithdrawalsOf(o, user, role)|
  {
    assert WithdrawalsOf(o, user, role) * WithdrawalIds(o, role) == WithdrawalsOf(o, user, role);
  }

  predicate WithdrawalsFree(l: Ledgers, role: Role, ids: set<int>) {
    forall e :: e in (if role.Customer? then l.customer else l.tasker) ==> !PointsInto(e.withdrawal, ids)
  }

  predicate PayoutMethodsFree(o: Own, ids: set<int>) {
    forall x :: x in o.taskerWithdrawals ==> o.taskerWithdrawals[x].payoutMethod !in ids
  }

  function PayoutMethodsOf(o: Own, user: int): set<int> {
    set x | x in o.payoutMethods && o.payoutMethods[x] == user
  }

  /** Nothing that stays refers to a booking that falls with a conversation. */
  predicate ForeignBookingsUnused(t: Tables, user: int, role: Role) {
    var d := Collect(t, user, role);
    var foreign := Foreign(t.work, d);
    BookingsFree(LedgersAfter(t.ledgers, d, user, role), ProgrammeAfter(t.programme, d),
                 RecordsAfter(t.records, d, foreign, user, role), foreign)
  }

  /** Nobody else's entry or withdrawal hangs on a withdrawal or payout method of the user. */
  predicate PayoutsUnshared(t: Tables, user: int, role: Role) {
    && WithdrawalsFree(LedgersAfter(t.ledgers, Collect(t, user, role), user, role), role,
                       WithdrawalsOf(t.own, user, role))
    && (role.Tasker? ==> PayoutMethodsFree(OwnAfter(t.own, user, role), PayoutMethodsOf(t.own, user)))
  }

  // ---- The transaction ----

  datatype Summary = Summary(bookings: nat, conversations: nat, paymentTransactions: nat, disputes: nat, reviews: nat,
                             referrals: nat, referralRewards: nat, customerLedgerEntries: nat, taskerLedgerEntries: nat,
                             platformLedgerEntries: nat, taskerEarnings: nat, withdrawals: nat,
                             counterpartiesRebalanced: seq<int>)

  /** A connection inside one transaction: once a statement is refused, no later statement has any effect. */
  class Transaction {
    var ledgers: Ledgers
    var balances: Balances
    var programme: Programme
    var records: Records
    var work: Work
    var own: Own
    var supportMessages: map<int, SupportMessage>
    var aborted: bool

    function Snapshot(): Tables
      reads this
    {
      Tables(ledgers, balances, programme, records, work, own, supportMessages)
    }

    constructor (t: Tables)
      ensures Snapshot() == t && !aborted
    {
      ledgers, balances, programme, records := t.ledgers, t.balances, t.programme, t.records;
      work, own, supportMessages, aborted := t.work, t.own, t.supportMessages, false;
    }

    /** Reverses and deletes the three ledgers; gives back the other users whose balances moved. */
    method ReverseLedgers(d: Doomed, user: int, role: Role) returns (rebalanced: set<int>)
      modifies this`ledgers, this`balances
      ensures ledgers == LedgersAfter(old(ledgers), d, user, role)
      ensures balances == BalancesReversed(old(Snapshot()), d, user, role)
      ensures forall u :: u in rebalanced <==> Moved(old(ledgers), d, user, role, u)
    {
      hide Kept, Removed, Total;
      rebalanced := {};
      var kept, left;
      kept, left, rebalanced :=
        ReverseLedger(ledgers.customer, CustomerEntries(d, user, role), balances.customer, user, rebalanced);
      SameBalances(balances.customer, left, Removed(ledgers.customer, CustomerEntries(d, user, role)));
      ledgers, balances := ledgers.(customer := kept), balances.(customer := left);
      kept, left, rebalanced :=
        ReverseLedger(ledgers.tasker, TaskerEntries(d, user, role), balances.tasker, user, rebalanced);
      SameBalances(balances.tasker, left, Removed(ledgers.tasker, TaskerEntries(d, user, role)));
      ledgers, balances := ledgers.(tasker := kept), balances.(tasker := left);
      kept, left, rebalanced :=
        ReverseLedger(ledgers.platform, PlatformEntries(d, user, role), balances.platform, user, rebalanced);
      SameBalances(balances.platform, left, Removed(ledgers.platform, PlatformEntries(d, user, role)));
      ledgers, balances := ledgers.(platform := kept), balances.(platform := left);
    }

    // Each of the following statements is refused when a row that stays refers to one it deletes.

    method DeleteRewards(ids: set<int>) returns (count: nat)
      modifies this`programme, this`aborted
      ensures aborted <==> old(aborted) || !RewardsFree(ledgers, ids)
      ensures !RewardsFree(ledgers, ids) <==>
        exists e :: (e in ledgers.customer || e in ledgers.tasker) && e.reward.Some? && e.reward.value in ids
      ensures programme == if aborted then old(programme) else old(programme.(rewards := programme.rewards - ids))
      ensures !aborted ==> count == |ids * old(programme.rewards.Keys)|
    {
      count := |ids * programme.rewards.Keys|;
      aborted := aborted || !RewardsFree(ledgers, ids);
      if !aborted {
        programme := programme.(rewards := programme.rewards - ids);
      }
    }

    method UnlinkReferrals(bookings: set<int>, notIn: set<int>)
      modifies this`programme
      ensures programme == if aborted then old(programme) else old(programme.(referrals :=
        map r | r in programme.referrals :: UnlinkedUnless(programme.referrals[r], bookings, r in notIn)))
    {
      if !aborted {
        programme := programme.(referrals :=
          map r | r in programme.referrals :: UnlinkedUnless(programme.referrals[r], bookings, r in notIn));
      }
    }

    method DeleteReferrals(ids: set<int>) returns (count: nat)
      modifies this`programme, this`aborted
      ensures aborted <==> old(aborted) || !ReferralsFree(programme, ids)
      ensures !ReferralsFree(old(programme), ids) <==>
        exists r :: r in old(programme).rewards && old(programme).rewards[r].referral in ids
      ensures programme == if aborted then old(programme) else old(programme.(referrals := programme.referrals - ids))
      ensures !aborted ==> count == |ids * old(programme.referrals.Keys)|
    {
      count := |ids * programme.referrals.Keys|;
      aborted := aborted || !ReferralsFree(programme, ids);
      if !aborted {
        programme := programme.(referrals := programme.referrals - ids);
      }
    }

    method DeleteReceivables(ids: set<int>)
      modifies this`programme, this`aborted
      ensures aborted <==> old(aborted) || !ReceivablesFree(ledgers, ids)
      ensures !ReceivablesFree(ledgers, ids) <==>
        exists e :: e in ledgers.platform && e.receivable.Some? && e.receivable.value in ids
      ensures programme == if aborted then old(programme)
                           else old(programme.(receivables := programme.receivables - ids))
    {
      aborted := aborted || !ReceivablesFree(ledgers, ids);
      if !aborted {
        programme := programme.(receivables := programme.receivables - ids);
      }
    }

    method DeleteEarnings(ids: set<int>) returns (count: nat)
      modifies this`programme, this`aborted
      ensures aborted <==> old(aborted) || !EarningsFree(ledgers, ids)
      ensures !EarningsFree(ledgers, ids) <==>
        exists e :: (e in ledgers.tasker || e in ledgers.platform) && e.earning.Some? && e.earning.value in ids
      ensures programme == if aborted then old(programme) else old(programme.(earnings := programme.earnings - ids))
      ensures !aborted ==> count == |ids * old(programme.earnings.Keys)|
    {
      count := |ids * programme.earnings.Keys|;
      aborted := aborted || !EarningsFree(ledgers, ids);
      if !aborted {
        programme := programme.(earnings := programme.earnings - ids);
      }
    }

    /** The rows the ledgers referred to: no foreign key stands in the way once the ledgers are cut. */
    method DeleteProgrammeRows(d: Doomed, user: int, role: Role) returns (rewards: nat, referrals: nat, earnings: nat)
      requires !aborted && LedgersClear(ledgers, d) && RewardsTaken(programme, d)
      modifies this`programme, this`aborted
      ensures !aborted
      ensures programme == ProgrammeAfter(old(programme), d)
      ensures rewards == |d.rewards * old(programme.rewards.Keys)|
      ensures referrals == |d.referrals * old(programme.referrals.Keys)|
      ensures earnings == |d.earnings * old(programme.earnings.Keys)|
    {
      ghost var p := programme;
      ProgrammeInSteps(p, d);
      hide RewardsFree, ReferralsFree, ReceivablesFree, EarningsFree, UnlinkedUnless, ProgrammeAfter, RewardsTaken;
      rewards := DeleteRewards(d.rewards);
      UnlinkReferrals(d.bookings, d.referrals);
      assert programme.referrals.Keys == p.referrals.Keys;
      referrals := DeleteReferrals(d.referrals);
      DeleteReceivables(d.receivables);
      earnings := DeleteEarnings(d.earnings);
    }

    /** Deletes complaints, and their evidence with them. */
    method DeleteComplaints(ids: set<int>)
      modifies this`records, this`aborted
      ensures aborted <==> old(aborted) || !ComplaintsFree(old(records), ids)
      ensures !ComplaintsFree(old(records), ids) <==>
        exists c :: c in old(records).cashRefunds && old(records).cashRefunds[c] in ids
      ensures records == if aborted then old(records) else ComplaintsCut(old(records), ids)
    {
      aborted := aborted || !ComplaintsFree(records, ids);
      if !aborted {
        records := records.(complaints := records.complaints - ids,
                            evidence := map e | e in records.evidence && records.evidence[e] !in ids
                                          :: records.evidence[e]);
      }
    }

    method DeleteBookingRecords(d: Doomed, user: int, role: Role) returns (payments: nat, disputes: nat, reviews: nat)
      requires !aborted
      modifies this`records, this`aborted
      ensures !aborted
      ensures records == RecordsAfter(old(records), d, {}, user, role)
      ensures payments == |PaymentsOf(old(records), d, user, role)|
      ensures disputes == |ComplaintsOn(old(records), d.bookings)|
      ensures reviews == |ReviewsOn(old(records), d.bookings)|
    {
      ghost var r := records;
      var disputed := ComplaintsOn(records, d.bookings);
      payments, disputes := |PaymentsOf(records, d, user, role)|, |disputed|;
      records := records.(payments :=
        map p | p in records.payments && !PaymentDoomed(records.payments[p], d, user, role) :: records.payments[p]);
      records := records.(cashRefunds :=
        map c | c in records.cashRefunds && records.cashRefunds[c] !in disputed :: records.cashRefunds[c]);
      DeleteComplaints(disputed);
      records := records.(chargebacks :=
        map c | c in records.chargebacks && !PointsInto(records.chargebacks[c], d.bookings) :: records.chargebacks[c]);
      records := records.(proofs :=
        map p | p in records.proofs && records.proofs[p] !in d.bookings :: records.proofs[p]);
      reviews := |ReviewsOn(records, d.bookings)|;
      assert records.reviews == r.reviews;
      assert ReviewsOn(records, d.bookings) == ReviewsOn(r, d.bookings);
      records := records.(reviews :=
        map v | v in records.reviews && records.reviews[v] !in d.bookings :: records.reviews[v]);
      records := records.(calls := CallsCut(records.calls, d.bookings));
      assert records.calls == RecordsAfter(r, d, {}, user, role).calls;
    }

    /**
     * Bookings, conversations and everything on them. Other people's bookings in
     * the conversations go as well, unless something that stays refers to one.
     */
    method DeleteWork(d: Doomed, user: int, role: Role)
      returns (bookings: nat, conversations: nat, payments: nat, disputes: nat, reviews: nat)
      requires !aborted && UnusedByLedgers(ledgers, d.bookings) && UnusedByProgramme(programme, d.bookings)
      modifies this`records, this`work, this`aborted
      ensures var foreign := Foreign(old(work), d); var after := RecordsAfter(old(records), d, foreign, user, role);
              && (aborted <==> !BookingsFree(ledgers, programme, after, foreign))
              && (!aborted ==> records == after && work == WorkAfter(old(work), d))
      ensures bookings == |d.bookings * old(work.bookings.Keys)|
      ensures conversations == |d.conversations * old(work.conversations.Keys)|
      ensures payments == |PaymentsOf(old(records), d, user, role)|
      ensures disputes == |ComplaintsOn(old(records), d.bookings)|
      ensures reviews == |ReviewsOn(old(records), d.bookings)|
    {
      ghost var foreign := Foreign(work, d);
      RecordsAreCut(records, d, foreign, user, role);
      WorkInSteps(work, d);
      hide RecordsAfter, UnusedByLedgers, UnusedByProgramme, UnusedByRecords, Foreign, BookingsHeld, CallsCut,
           WorkAfter, PaymentsOf, ComplaintsOn, ReviewsOn;
      payments, disputes, reviews := DeleteBookingRecords(d, user, role);
      ghost var cut := records;
      bookings := DeleteBookings(d.bookings);
      CallsMatter(ledgers, programme, cut, records.calls, foreign);
      conversations := DeleteConversations(d.conversations);
    }

    /** Deletes bookings; their calls go with them and messages about them lose the reference. */
    method DeleteBookings(ids: set<int>) returns (count: nat)
      modifies this`records, this`work, this`aborted
      ensures aborted <==> old(aborted) || !BookingsFree(ledgers, programme, old(records), ids)
      ensures !BookingsFree(ledgers, programme, old(records), ids) <==>
        exists b :: b in ids && IsReferredTo(ledgers, programme, old(records), b)
      ensures records == if aborted then old(records) else old(records.(calls := CallsCut(records.calls, ids)))
      ensures work == if aborted then old(work) else BookingsCut(old(work), ids)
      ensures count == |ids * old(work.bookings.Keys)|
    {
      FreeMeansNotReferredTo(ledgers, programme, records, ids);
      hide BookingsFree, IsReferredTo;
      count := |ids * work.bookings.Keys|;
      aborted := aborted || !BookingsFree(ledgers, programme, records, ids);
      if !aborted {
        records := records.(calls := CallsCut(records.calls, ids));
        work := work.(bookings := work.bookings - ids,
                      messages := map m | m in work.messages ::
                        work.messages[m].(booking := Unlinked(work.messages[m].booking, ids)));
      }
    }

    /** Deletes conversations; their bookings and messages go with them. */
    method DeleteConversations(ids: set<int>) returns (count: nat)
      modifies this`records, this`work, this`aborted
      ensures var held := BookingsHeld(old(work), ids);
              && (aborted <==> old(aborted) || !BookingsFree(ledgers, programme, old(records), held))
              && records == (if aborted then old(records) else old(records.(calls := CallsCut(records.calls, held))))
              && (!aborted ==> work == ConversationsCut(BookingsCut(old(work), held), ids))
      ensures count == |ids * old(work.conversations.Keys)|
    {
      count := |ids * work.conversations.Keys|;
      var _ := DeleteBookings(BookingsHeld(work, ids));
      if !aborted {
        work := work.(conversations := work.conversations - ids,
                      messages := map m | m in work.messages && work.messages[m].conversation !in ids
                        :: work.messages[m]);
      }
    }

    method DeleteWithdrawals(ids: set<int>, role: Role) returns (count: nat)
      modifies this`own, this`aborted
      ensures aborted <==> old(aborted) || !WithdrawalsFree(ledgers, role, ids)
      ensures !WithdrawalsFree(ledgers, role, ids) <==>
        || (role == Customer && exists e :: e in ledgers.customer && e.withdrawal.Some? && e.withdrawal.value in ids)
        || (role == Tasker && exists e :: e in ledgers.tasker && e.withdrawal.Some? && e.withdrawal.value in ids)
      ensures own == if aborted then old(own) else WithdrawalsCut(old(own), role, ids)
      ensures count == |ids * WithdrawalIds(old(own), role)|
    {
      count := |ids * WithdrawalIds(own, role)|;
      aborted := aborted || !WithdrawalsFree(ledgers, role, ids);
      if !aborted {
        if role.Customer? {
          own := own.(customerWithdrawals := own.customerWithdrawals - ids);
        } else {
          own := own.(taskerWithdrawals := own.taskerWithdrawals - ids);
        }
      }
    }

    method DeletePayoutMethods(ids: set<int>)
      modifies this`own, this`aborted
      ensures aborted <==> old(aborted) || !PayoutMethodsFree(old(own), ids)
      ensures !PayoutMethodsFree(old(own), ids) <==>
        exists x :: x in old(own).taskerWithdrawals && old(own).taskerWithdrawals[x].payoutMethod in ids
      ensures own == if aborted then old(own) else old(own.(payoutMethods := own.payoutMethods - ids))
    {
      aborted := aborted || !PayoutMethodsFree(own, ids);
      if !aborted {
        own := own.(payoutMethods := own.payoutMethods - ids);
      }
    }

    /** The money and profile rows of the role that hang on no booking. */
    method DeleteRoleRows(user: int, role: Role) returns (withdrawals: nat)
      modifies this`own, this`balances, this`aborted
      ensures aborted <==> old(aborted) || !WithdrawalsFree(ledgers, role, WithdrawalsOf(old(own), user, role))
                           || (role.Tasker? && !PayoutMethodsFree(OwnAfter(old(own), user, role),
                                                                  PayoutMethodsOf(old(own), user)))
      ensures !aborted ==> own == OwnAfter(old(own), user, role)
      ensures !aborted ==> balances == WithoutUser(old(balances), user, role)
      ensures withdrawals == |WithdrawalsOf(old(own), user, role)|
    {
      OwnInSteps(own, user, role);
      hide WithdrawalsOf, WithdrawalIds;
      var methods := PayoutMethodsOf(own, user);
      WithdrawalsAreRows(own, user, role);
      withdrawals := DeleteWithdrawals(WithdrawalsOf(own, user, role), role);
      if role.Tasker? {
        DeletePayoutMethods(methods);
        if !aborted {
          balances := balances.(platform := balances.platform - {user});
          balances := balances.(tasker := balances.tasker - {user});
          own := own.(evaluations := map x | x in own.evaluations && own.evaluations[x] != user :: own.evaluations[x]);
          own := own.(transitions := map x | x in own.transitions && own.transitions[x] != user :: own.transitions[x]);
        }
      } else if !aborted {
        balances := balances.(customer := balances.customer - {user});
      }
    }

    /**
     * The whole purge. It goes through exactly when no surviving row refers to a
     * booking that falls with a conversation, or to a payout of the user, and it
     * then leaves exactly the rows and balances of `Purged`; the returned list
     * is sorted, without duplicates, and holds exactly the other users whose
     * removed entries do not cancel out.
     */
    method PurgeMarketplaceRoleData(user: int, role: Role) returns (summary: Summary)
      requires !aborted
      modifies this
      ensures aborted <==> !ForeignBookingsUnused(old(Snapshot()), user, role)
                           || !PayoutsUnshared(old(Snapshot()), user, role)
      ensures !aborted ==> Snapshot() == Purged(old(Snapshot()), user, role)
      ensures Ascending(summary.counterpartiesRebalanced)
      ensures forall u :: u in summary.counterpartiesRebalanced <==>
        Moved(old(ledgers), Collect(old(Snapshot()), user, role), user, role, u)
      ensures !aborted ==> Counts(summary, old(Snapshot()), user, role)
    {
      ghost var t := Snapshot();
      var d := Collect(Snapshot(), user, role);
      var entries := |Removed(ledgers.customer, CustomerEntries(d, user, role))|;
      var taskerEntries := |Removed(ledgers.tasker, TaskerEntries(d, user, role))|;
      var platformEntries := |Removed(ledgers.platform, PlatformEntries(d, user, role))|;
      LedgersAreCut(ledgers, d, user, role);
      NothingPointsAtDoomed(t, user, role);
      hide Collect, LedgersAfter, BalancesReversed, ProgrammeAfter, RecordsAfter, Moved, RewardsTaken, BookingsFree,
           UnusedByLedgers, UnusedByProgramme, OwnAfter, WithoutUser, WithdrawalsFree, PayoutMethodsFree, WorkAfter,
           Foreign, RewardsFree, ReceivablesFree, EarningsFree, PaymentsOf, ComplaintsOn, ReviewsOn, WithdrawalsOf;
      var rebalanced := ReverseLedgers(d, user, role);
      var rewards, referrals, earnings := DeleteProgrammeRows(d, user, role);
      var bookings, conversations, payments, disputes, reviews := DeleteWork(d, user, role);
      var withdrawals := DeleteRoleRows(user, role);
      var counterparties := SortedIds(rebalanced);
      summary := Summary(bookings, conversations, payments, disputes, reviews, referrals, rewards, entries,
                         taskerEntries, platformEntries, earnings, withdrawals, counterparties);
    }
  }

  /** The numbers reported: ids found among the rows of each table, and entries removed from each ledger. */
  predicate Counts(s: Summary, t: Tables, user: int, role: Role) {
    var d := Collect(t, user, role);
    && s.bookings == |d.bookings * t.work.bookings.Keys|
    && s.conversations == |d.conversations * t.work.conversations.Keys|
    && s.paymentTransactions == |PaymentsOf(t.records, d, user, role)|
    && s.disputes == |ComplaintsOn(t.records, d.bookings)|
    && s.reviews == |ReviewsOn(t.records, d.bookings)|
    && s.withdrawals == |WithdrawalsOf(t.own, user, role)|
    && s.referrals == |d.referrals * t.programme.referrals.Keys|
    && s.referralRewards == |d.rewards * t.programme.rewards.Keys|
    && s.taskerEarnings == |d.earnings * t.programme.earnings.Keys|
    && s.customerLedgerEntries == |Removed(t.ledgers.customer, CustomerEntries(d, user, role))|
    && s.taskerLedgerEntries == |Removed(t.ledgers.tasker, TaskerEntries(d, user, role))|
    && s.platformLedgerEntries == |Removed(t.ledgers.platform, PlatformEntries(d, user, role))|
  }

  lemma LedgersAreCut(l: Ledgers, d: Doomed, user: int, role: Role)
    ensures LedgersClear(LedgersAfter(l, d, user, role), d)
  {
    var after := LedgersAfter(l, d, user, role);
    hide Kept, LedgersAfter;
    CutLedger(l.customer, CustomerEntries(d, user, role));
    CutLedger(l.tasker, TaskerEntries(d, user, role));
    CutLedger(l.platform, PlatformEntries(d, user, role));
    assert after.customer == Kept(l.customer, CustomerEntries(d, user, role)) by { AfterIsKept(l, d, user, role); }
    assert after.tasker == Kept(l.tasker, TaskerEntries(d, user, role)) by { AfterIsKept(l, d, user, role); }
    assert after.platform == Kept(l.platform, PlatformEntries(d, user, role)) by { AfterIsKept(l, d, user, role); }
  }

  lemma AfterIsKept(l: Ledgers, d: Doomed, user: int, role: Role)
    ensures LedgersAfter(l, d, user, role) ==
            Ledgers(Kept(l.customer, CustomerEntries(d, user, role)), Kept(l.tasker, TaskerEntries(d, user, role)),
                    Kept(l.platform, PlatformEntries(d, user, role)))
  {
  }

  lemma CutLedger(ledger: seq<Entry>, s: Selection)
    ensures forall e :: e in Kept(ledger, s) ==> e in ledger && !Selected(e, s)
  {
    forall e | e in Kept(ledger, s) ensures e in ledger && !Selected(e, s) {
      KeptMembers(ledger, s, e);
    }
  }

  /** The closure is closed: no row that is still there then refers to a booking of the user. */
  lemma NothingPointsAtDoomed(t: Tables, user: int, role: Role)
    ensures var d := Collect(t, user, role);
            && RewardsTaken(t.programme, d)
            && UnusedByProgramme(ProgrammeAfter(t.programme, d), d.bookings)
  {
  }

  lemma RecordsAreCut(r: Records, d: Doomed, foreign: set<int>, user: int, role: Role)
    ensures UnusedByRecords(RecordsAfter(r, d, {}, user, role), d.bookings)
    ensures var cut, after := RecordsAfter(r, d, {}, user, role), RecordsAfter(r, d, foreign, user, role);
            && after == cut.(calls := CallsCut(CallsCut(cut.calls, d.bookings), foreign))
            && (UnusedByRecords(cut, foreign) <==> UnusedByRecords(after, foreign))
  {
    var cut, after := RecordsAfter(r, d, {}, user, role), RecordsAfter(r, d, foreign, user, role);
    assert after.calls == CallsCut(CallsCut(cut.calls, d.bookings), foreign);
  }

  lemma CallsMatter(l: Ledgers, p: Programme, r: Records, calls: map<int, Call>, ids: set<int>)
    ensures BookingsFree(l, p, r.(calls := calls), ids) <==> BookingsFree(l, p, r, ids)
  {
  }

  function CallsCut(calls: map<int, Call>, bookings: set<int>): map<int, Call> {
    map c | c in calls && calls[c].booking !in bookings :: calls[c]
  }

  function ComplaintsCut(r: Records, ids: set<int>): Records {
    r.(complaints := r.complaints - ids,
       evidence := map e | e in r.evidence && r.evidence[e] !in ids :: r.evidence[e])
  }

  function BookingsHeld(w: Work, conversations: set<int>): set<int> {
    set b | b in w.bookings && w.bookings[b].conversation in conversations
  }

  function BookingsCut(w: Work, ids: set<int>): Work {
    w.(bookings := w.bookings - ids,
       messages := map m | m in w.messages :: w.messages[m].(booking := Unlinked(w.messages[m].booking, ids)))
  }

  function ConversationsCut(w: Work, ids: set<int>): Work {
    w.(conversations := w.conversations - ids,
       messages := map m | m in w.messages && w.messages[m].conversation !in ids :: w.messages[m])
  }

  function WithdrawalsCut(o: Own, role: Role, ids: set<int>): Own {
    if role.Customer? then o.(customerWithdrawals := o.customerWithdrawals - ids)
    else o.(taskerWithdrawals := o.taskerWithdrawals - ids)
  }

  lemma OwnInSteps(o: Own, user: int, role: Role)
    ensures var cut := WithdrawalsCut(o, role, WithdrawalsOf(o, user, role));
            && cut.customerWithdrawals == OwnAfter(o, user, role).customerWithdrawals
            && cut.taskerWithdrawals == OwnAfter(o, user, role).taskerWithdrawals
            && (role.Tasker? ==> cut.payoutMethods - PayoutMethodsOf(o, user) == OwnAfter(o, user, role).payoutMethods)
  {
  }

  lemma UnlinkTwice(ref: Option<int>, a: set<int>, b: set<int>)
    ensures Unlinked(Unlinked(ref, a), b) == Unlinked(ref, a + b)
  {
  }

  lemma WorkInSteps(w: Work, d: Doomed)
    ensures var cut := BookingsCut(w, d.bookings);
            && BookingsHeld(cut, d.conversations) == Foreign(w, d)
            && ConversationsCut(BookingsCut(cut, Foreign(w, d)), d.conversations) == WorkAfter(w, d)
  {
    var cut := BookingsCut(w, d.bookings);
    var both := ConversationsCut(BookingsCut(cut, Foreign(w, d)), d.conversations);
    var foreign, after := Foreign(w, d), WorkAfter(w, d);
    assert BookingsHeld(cut, d.conversations) == foreign;
    assert both.bookings == after.bookings;
    hide Unlinked;
    forall m | m in w.messages && w.messages[m].conversation !in d.conversations
      ensures both.messages[m] == after.messages[m]
    {
      UnlinkTwice(w.messages[m].booking, d.bookings, foreign);
    }
    assert both.messages == after.messages;
  }

  lemma ProgrammeInSteps(p: Programme, d: Doomed)
    requires RewardsTaken(p, d)
    ensures var unlinked := map r | r in p.referrals :: UnlinkedUnless(p.referrals[r], d.bookings, r in d.referrals);
            && ReferralsFree(Programme(unlinked, p.rewards - d.rewards, p.earnings, p.receivables), d.referrals)
            && ProgrammeAfter(p, d) ==
               Programme(unlinked - d.referrals, p.rewards - d.rewards, p.earnings - d.earnings,
                         p.receivables - d.receivables)
  {
  }

  function UnlinkedUnless(r: Referral, bookings: set<int>, keep: bool): Referral {
    if keep then r else r.(qualifyingBooking := Unlinked(r.qualifyingBooking, bookings))
  }

  /** No entry that stays hangs on a doomed row. */
  predicate LedgersClear(l: Ledgers, d: Doomed) {
    && RewardsFree(l, d.rewards) && ReceivablesFree(l, d.receivables) && EarningsFree(l, d.earnings)
    && UnusedByLedgers(l, d.bookings)
  }

  /** Every reward of a doomed referral is doomed. */
  predicate RewardsTaken(p: Programme, d: Doomed) {
    forall r :: r in p.rewards && p.rewards[r].referral in d.referrals ==> r in d.rewards
  }

  /** Another user whose entries among the removed ones do not cancel out in some ledger. */
  predicate Moved(l: Ledgers, d: Doomed, user: int, role: Role, u: int) {
    && u != user
    && (|| Total(Removed(l.customer, CustomerEntries(d, user, role)), u) != ZERO
        || Total(Removed(l.tasker, TaskerEntries(d, user, role)), u) != ZERO
        || Total(Removed(l.platform, PlatformEntries(d, user, role)), u) != ZERO)
  }

  lemma SameBalances(balances: map<int, Balance>, left: map<int, Balance>, removed: seq<Entry>)
    requires left.Keys == balances.Keys
    requires forall u :: u in balances ==> Plus(left[u], Total(removed, u)) == balances[u]
    ensures left == TakenBack(balances, removed)
  {
    hide Total;
    forall u | u in balances ensures left[u] == Minus(balances[u], Total(removed, u)) {
      assert Plus(left[u], Total(removed, u)) == balances[u];
    }
  }
}
