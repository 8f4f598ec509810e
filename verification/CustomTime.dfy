/**
 * Requests for a time outside the listed slots: asked for by a customer,
 * answered by the tasker, and spent by one booking, each within a short window.
 */
module CustomTime {
  import opened Common
  import opened TimeUtil

  datatype Status = Pending | Accepted | Rejected | Cancelled | Expired | Fulfilled

  datatype Request = Request(customer: int, tasker: int, service: string, date: int, time: string, status: Status,
                             expiresAt: int, booking: Option<int>)

  /** The clock counts milliseconds; dates are days since its start. */
  datatype State = State(now: nat, requests: map<int, Request>)

  const INITIAL: State := State(0, map[])
  const MS_PER_DAY: nat := 86_400_000

  /** What a booking says about the request it wants to spend. */
  datatype Claim = Claim(request: int, customer: int, tasker: int, service: string, date: int, time: string)

  datatype Step =
    | Wait(ms: nat)
    | Create(request: int, customer: int, tasker: int, service: string, date: int, time: string)
    | Respond(tasker: int, request: int, accept: bool)
    | Cancel(customer: int, request: int)
    | Spend(claim: Claim, booking: int)
    | Expire(request: int)

  predicate IsOpen(status: Status) {
    status in {Pending, Accepted}
  }

  predicate IsPastStart(date: int, time: string, now: nat) {
    var today := now / MS_PER_DAY;
    date < today || (date == today &&
      (ParseTimeToMinutes(time).None? || ParseTimeToMinutes(time).value <= (now % MS_PER_DAY) / 60_000))
  }

  /** Past exactly when the day, or the minute of the day, has been reached; a text without a minute is past today. */
  lemma PastMeansMinuteReached(date: int, time: string, now: nat)
    requires ParseTimeToMinutes(time).Some?
    ensures IsPastStart(date, time, now) <==> date * 1440 + ParseTimeToMinutes(time).value <= now / 60_000
  {
    var start := ParseTimeToMinutes(time).value;
    hide ParseTimeToMinutes;
    assert now / 60_000 == (now / MS_PER_DAY) * 1440 + (now % MS_PER_DAY) / 60_000;
  }

  predicate PendingFor(r: Request, customer: int, tasker: int) {
    r.customer == customer && r.tasker == tasker && r.status == Pending
  }

  /** A pair's pending requests that have run out are closed before a new one is made. */
  function StaleExpired(requests: map<int, Request>, customer: int, tasker: int, now: int): map<int, Request> {
    map id | id in requests ::
      if PendingFor(requests[id], customer, tasker) && requests[id].expiresAt <= now
      then requests[id].(status := Expired) else requests[id]
  }

  predicate MayCreate(s: State, customer: int, tasker: int, date: int, time: string) {
    && customer != tasker && date >= s.now / MS_PER_DAY && !IsPastStart(date, time, s.now)
    && forall id :: id in s.requests && PendingFor(s.requests[id], customer, tasker) ==>
          s.requests[id].expiresAt <= s.now
  }

  predicate MayRespond(s: State, tasker: int, id: int, accept: bool) {
    && id in s.requests && s.requests[id].tasker == tasker && s.requests[id].status == Pending
    && s.now < s.requests[id].expiresAt
    && (accept ==> !IsPastStart(s.requests[id].date, s.requests[id].time, s.now))
  }

  predicate Fits(r: Request, c: Claim) {
    && r.tasker == c.tasker && r.service == c.service && r.date == c.date
    && ParseTimeToMinutes(r.time) == ParseTimeToMinutes(c.time)
  }

  datatype Refusal = NotFound | Mismatch | AlreadyFulfilled | HasExpired | NotAccepted

  /** The checks before a booking may use a request, in the order they are made. */
  function AssertUsable(requests: map<int, Request>, now: int, c: Claim): Option<Refusal> {
    if c.request !in requests || requests[c.request].customer != c.customer then Some(NotFound)
    else
      var r := requests[c.request];
      if !Fits(r, c) then Some(Mismatch)
      else if r.status == Fulfilled then Some(AlreadyFulfilled)
      else if r.status == Expired || (r.status == Accepted && r.expiresAt <= now) then Some(HasExpired)
      else if r.status != Accepted then Some(NotAccepted)
      else None
  }

  predicate Taken(s: State, booking: int) {
    exists id :: id in s.requests && s.requests[id].booking == Some(booking)
  }

  /** A step that is refused has no effect. */
  function Do(s: State, step: Step, ttlMs: nat): State {
    match step
    case Wait(ms) => s.(now := s.now + ms)
    case Create(id, customer, tasker, service, date, time) =>
      if id !in s.requests && MayCreate(s, customer, tasker, date, time)
      then s.(requests := StaleExpired(s.requests, customer, tasker, s.now)
                [id := Request(customer, tasker, service, date, time, Pending, s.now + ttlMs, None)])
      else s
    case Respond(tasker, id, accept) =>
      if !MayRespond(s, tasker, id, accept) then s
      else if accept
      then s.(requests := s.requests[id := s.requests[id].(status := Accepted, expiresAt := s.now + ttlMs)])
      else s.(requests := s.requests[id := s.requests[id].(status := Rejected)])
    case Cancel(customer, id) =>
      if id in s.requests && s.requests[id].customer == customer && IsOpen(s.requests[id].status)
      then s.(requests := s.requests[id := s.requests[id].(status := Cancelled)]) else s
    case Spend(claim, booking) =>
      // Bookings have fresh ids: `RequestedBooking` shows that no request names one before it is made.
      if AssertUsable(s.requests, s.now, claim).None? && !Taken(s, booking)
      then s.(requests := s.requests[claim.request :=
                s.requests[claim.request].(status := Fulfilled, booking := Some(booking))])
      else s
    case Expire(id) =>
      if id in s.requests && s.requests[id].expiresAt <= s.now && IsOpen(s.requests[id].status)
      then s.(requests := s.requests[id := s.requests[id].(status := Expired)]) else s
  }

  function Run(steps: seq<Step>, ttlMs: nat): State {
    if steps == [] then INITIAL else Do(Run(steps[..|steps| - 1], ttlMs), steps[|steps| - 1], ttlMs)
  }

  // ---- What must hold ----

  predicate SamePair(s: State, a: int, b: int)
    requires a in s.requests && b in s.requests
  {
    && s.requests[a].status == s.requests[b].status == Pending
    && s.requests[a].customer == s.requests[b].customer && s.requests[a].tasker == s.requests[b].tasker
  }

  predicate OnePending(s: State) {
    forall a, b :: a in s.requests && b in s.requests && SamePair(s, a, b) ==> a == b
  }

  predicate SameBooking(s: State, a: int, b: int)
    requires a in s.requests && b in s.requests
  {
    s.requests[a].booking.Some? && s.requests[a].booking == s.requests[b].booking
  }

  predicate SpentOnce(s: State) {
    && (forall id :: id in s.requests ==> (s.requests[id].booking.Some? <==> s.requests[id].status == Fulfilled))
    && (forall a, b :: a in s.requests && b in s.requests && SameBooking(s, a, b) ==> a == b)
  }

  predicate Inv(s: State) {
    OnePending(s) && SpentOnce(s)
  }

  lemma StepKeepsOnePending(s: State, step: Step, ttlMs: nat)
    requires Inv(s)
    ensures OnePending(Do(s, step, ttlMs))
  {
    var s' := Do(s, step, ttlMs);
    hide IsPastStart, AssertUsable;
    forall a, b | a in s'.requests && b in s'.requests && SamePair(s', a, b) ensures a == b {
      if a in s.requests && b in s.requests {
        assert SamePair(s, a, b) ==> a == b;
      }
    }
  }

  lemma StepKeepsSpentOnce(s: State, step: Step, ttlMs: nat)
    requires Inv(s)
    ensures SpentOnce(Do(s, step, ttlMs))
  {
    var s' := Do(s, step, ttlMs);
    hide IsPastStart, Fits;
    forall a, b | a in s'.requests && b in s'.requests && SameBooking(s', a, b) ensures a == b {
      if a in s.requests && b in s.requests {
        assert SameBooking(s, a, b) ==> a == b;
      }
    }
  }

  lemma {:induction false} RunKeepsInv(steps: seq<Step>, ttlMs: nat)
    ensures Inv(Run(steps, ttlMs))
  {
    if steps != [] {
      RunKeepsInv(steps[..|steps| - 1], ttlMs);
      hide Do, OnePending, SpentOnce;
      StepKeepsOnePending(Run(steps[..|steps| - 1], ttlMs), steps[|steps| - 1], ttlMs);
      StepKeepsSpentOnce(Run(steps[..|steps| - 1], ttlMs), steps[|steps| - 1], ttlMs);
    }
  }

  // ---- Main results ----

  /** In every run a pair has one pending request at most, and a booking has spent one request at most. */
  lemma {:induction false} OnePendingPerPairAndOneRequestPerBooking(steps: seq<Step>, ttlMs: nat, a: int, b: int)
    requires a in Run(steps, ttlMs).requests && b in Run(steps, ttlMs).requests && a != b
    ensures !SamePair(Run(steps, ttlMs), a, b) && !SameBooking(Run(steps, ttlMs), a, b)
  {
    RunKeepsInv(steps, ttlMs);
  }

  /**
   * A request becomes fulfilled only by a booking of exactly its customer, tasker,
   * service, date and minute, while it is accepted and its window is open; and any
   * such booking may spend it.
   */
  lemma SpentExactlyWhileUsable(s: State, step: Step, ttlMs: nat, id: int)
    requires id in s.requests && s.requests[id].status != Fulfilled
    ensures var r := s.requests[id];
            Do(s, step, ttlMs).requests[id].status == Fulfilled <==>
            && step.Spend? && step.claim.request == id && !Taken(s, step.booking)
            && r.status == Accepted && s.now < r.expiresAt
            && r.customer == step.claim.customer && r.tasker == step.claim.tasker && r.service == step.claim.service
            && r.date == step.claim.date && ParseTimeToMinutes(r.time) == ParseTimeToMinutes(step.claim.time)
    ensures Do(s, step, ttlMs).requests[id].status == Fulfilled ==>
              Do(s, step, ttlMs).requests[id].booking == Some(step.booking)
  {
    hide IsPastStart, ParseTimeToMinutes, Taken;
  }

  /** Accepting opens a new window of full length: a fitting booking may use the request exactly until it closes. */
  lemma AcceptanceOpensABookingWindow(s: State, tasker: int, id: int, ttlMs: nat, claim: Claim, later: int)
    requires MayRespond(s, tasker, id, true)
    requires claim.request == id && claim.customer == s.requests[id].customer && Fits(s.requests[id], claim)
    ensures var s' := Do(s, Respond(tasker, id, true), ttlMs);
            AssertUsable(s'.requests, later, claim).None? <==> later < s.now + ttlMs
    ensures var s' := Do(s, Respond(tasker, id, false), ttlMs);
            MayRespond(s, tasker, id, false) ==> AssertUsable(s'.requests, later, claim) == Some(NotAccepted)
  {
    hide IsPastStart, ParseTimeToMinutes;
  }

  function After(s: State, steps: seq<Step>, ttlMs: nat): State
    decreases |steps|
  {
    if steps == [] then s else After(Do(s, steps[0], ttlMs), steps[1..], ttlMs)
  }

  lemma ClosedStays(s: State, step: Step, ttlMs: nat, id: int)
    requires id in s.requests && !IsOpen(s.requests[id].status)
    ensures id in Do(s, step, ttlMs).requests && Do(s, step, ttlMs).requests[id] == s.requests[id]
  {
    hide IsPastStart, ParseTimeToMinutes, Taken;
  }

  /** Rejected, cancelled, expired and fulfilled requests never change again. */
  lemma {:induction false} ClosedRequestsNeverChange(s: State, steps: seq<Step>, ttlMs: nat, id: int)
    requires id in s.requests && !IsOpen(s.requests[id].status)
    ensures id in After(s, steps, ttlMs).requests && After(s, steps, ttlMs).requests[id] == s.requests[id]
    decreases |steps|
  {
    if steps != [] {
      hide Do;
      ClosedStays(s, steps[0], ttlMs, id);
      ClosedRequestsNeverChange(Do(s, steps[0], ttlMs), steps[1..], ttlMs, id);
    }
  }

  // ---- What each operation asks for and does, row by row ----

  /** A start that lies ahead: on a later day, or today at a readable minute that has not been reached. */
  predicate LiesAhead(date: int, time: string, now: nat) {
    || date > now / 86_400_000
    || (&& date == now / 86_400_000 && ParseTimeToMinutes(time).Some?
        && date * 1440 + ParseTimeToMinutes(time).value > now / 60_000)
  }

  lemma AheadMeansNotPast(date: int, time: string, now: nat)
    ensures LiesAhead(date, time, now) <==> date >= now / 86_400_000 && !IsPastStart(date, time, now)
  {
    if ParseTimeToMinutes(time).Some? {
      PastMeansMinuteReached(date, time, now);
    }
    hide ParseTimeToMinutes;
  }

  /** A request waiting for the tasker's answer, with its window still open. */
  predicate IsWaiting(r: Request, customer: int, tasker: int, now: nat) {
    r.customer == customer && r.tasker == tasker && r.status == Pending && r.expiresAt > now
  }

  /**
   * Asking: for a start ahead, of another person, and while nothing the customer
   * asked of this tasker is waiting. The new request says what was asked for and
   * waits for one window; what had run out between the two is closed.
   */
  lemma CreateRule(s: State, id: int, customer: int, tasker: int, service: string, date: int, time: string, ttlMs: nat)
    requires id !in s.requests
    ensures var s' := Do(s, Create(id, customer, tasker, service, date, time), ttlMs);
            var may := && customer != tasker && LiesAhead(date, time, s.now)
                       && forall other :: other in s.requests ==>
                            !IsWaiting(s.requests[other], customer, tasker, s.now);
            && (MayCreate(s, customer, tasker, date, time) <==> may)
            && (id in s'.requests <==> may)
            && (!may ==> s' == s)
            && (may ==>
                  && s'.now == s.now && s'.requests.Keys == s.requests.Keys + {id}
                  && s'.requests[id] == Request(customer, tasker, service, date, time, Pending, s.now + ttlMs, None)
                  && forall other :: other in s.requests ==>
                       s'.requests[other] ==
                       if && s.requests[other].customer == customer && s.requests[other].tasker == tasker
                          && s.requests[other].status == Pending
                       then s.requests[other].(status := Expired) else s.requests[other])
  {
    AheadMeansNotPast(date, time, s.now);
    hide IsPastStart, LiesAhead;
  }

  /**
   * Answering: by the tasker asked, while the request waits; accepting
   * only for a start ahead, and for a new window.
   */
  lemma RespondRule(s: State, tasker: int, id: int, accept: bool, ttlMs: nat)
    ensures var s' := Do(s, Respond(tasker, id, accept), ttlMs);
            var may := && id in s.requests && s.requests[id].tasker == tasker && s.requests[id].status == Pending
                       && s.requests[id].expiresAt > s.now
                       && (accept ==> LiesAhead(s.requests[id].date, s.requests[id].time, s.now));
            && (MayRespond(s, tasker, id, accept) <==> may)
            && s' == if !may then s
                     else s.(requests := s.requests[id :=
                       if accept then s.requests[id].(status := Accepted, expiresAt := s.now + ttlMs)
                       else s.requests[id].(status := Rejected)])
  {
    if id in s.requests {
      AheadMeansNotPast(s.requests[id].date, s.requests[id].time, s.now);
    }
    hide IsPastStart, LiesAhead;
    assert id in s.requests && MayRespond(s, tasker, id, accept) && accept ==>
      s.requests[id].date >= s.now / MS_PER_DAY by {
      AcceptableIsAhead(s, tasker, id);
    }
  }

  lemma AcceptableIsAhead(s: State, tasker: int, id: int)
    ensures MayRespond(s, tasker, id, true) ==> s.requests[id].date >= s.now / MS_PER_DAY
  {
  }

  /** Withdrawing, by the customer, and running out, each from pending or accepted only. */
  lemma ClosingRule(s: State, customer: int, id: int, ttlMs: nat)
    requires id in s.requests
    ensures var r := s.requests[id]; var open := r.status == Pending || r.status == Accepted;
            && Do(s, Cancel(customer, id), ttlMs) ==
               (if r.customer == customer && open then s.(requests := s.requests[id := r.(status := Cancelled)]) else s)
            && Do(s, Expire(id), ttlMs) ==
               (if r.expiresAt <= s.now && open then s.(requests := s.requests[id := r.(status := Expired)]) else s)
  {
  }

  /** Why a booking may not use a request; the first reason found is the one given. */
  lemma RefusalsMean(requests: map<int, Request>, now: int, c: Claim)
    ensures var found := c.request in requests && requests[c.request].customer == c.customer;
            && (AssertUsable(requests, now, c) == Some(NotFound) <==> !found)
            && (found ==>
                  var r := requests[c.request]; var refusal := AssertUsable(requests, now, c);
                  var fits := r.tasker == c.tasker && r.service == c.service && r.date == c.date
                              && ParseTimeToMinutes(r.time) == ParseTimeToMinutes(c.time);
                  && (refusal == Some(Mismatch) <==> !fits)
                  && (refusal == Some(AlreadyFulfilled) <==> fits && r.status == Fulfilled)
                  && (refusal == Some(HasExpired) <==>
                      fits && (r.status == Expired || (r.status == Accepted && r.expiresAt <= now)))
                  && (refusal == Some(NotAccepted) <==>
                      fits && (r.status == Pending || r.status == Rejected || r.status == Cancelled))
                  && (refusal == None <==> fits && r.status == Accepted && r.expiresAt > now))
  {
    hide ParseTimeToMinutes;
  }

  // ---- Listing and viewing ----

  /** The status shown: an open request whose window is over counts as expired before the sweep closes it. */
  function ViewStatus(r: Request, now: int): Status {
    if IsOpen(r.status) && r.expiresAt <= now then Expired else r.status
  }

  /** The filter of a listing, as a condition on the stored row. */
  predicate ListFilter(r: Request, wanted: Status, now: int) {
    if wanted == Expired then r.status == Expired || (IsOpen(r.status) && r.expiresAt <= now)
    else if IsOpen(wanted) then r.status == wanted && r.expiresAt > now
    else r.status == wanted
  }

  /** Shown as expired is what is, and what is pending or accepted with its window over; all else as stored. */
  lemma ShownStatus(r: Request, now: int)
    ensures ViewStatus(r, now) ==
            if (r.status == Pending || r.status == Accepted) && now >= r.expiresAt then Expired else r.status
  {
  }

  /** At any one moment a listing by status holds exactly the rows that are shown with that status. */
  lemma ListingAgreesWithView(requests: map<int, Request>, wanted: Status, now: int)
    ensures (set id | id in requests && ListFilter(requests[id], wanted, now)) ==
            (set id | id in requests && ViewStatus(requests[id], now) == wanted)
  {
    assert forall id :: id in requests ==>
             (ListFilter(requests[id], wanted, now) <==> ViewStatus(requests[id], now) == wanted);
  }

  /** The sweep changes what is stored and never what is shown. */
  lemma SweepIsInvisible(s: State, ttlMs: nat, id: int, other: int)
    requires other in s.requests
    ensures var s' := Do(s, Expire(id), ttlMs);
            other in s'.requests && ViewStatus(s'.requests[other], s'.now) == ViewStatus(s.requests[other], s.now)
  {
  }

  // ---- The service ----

  /** Open, with its window over. */
  predicate IsDue(requests: map<int, Request>, id: int, now: int) {
    id in requests && IsOpen(requests[id].status) && requests[id].expiresAt <= now
  }

  function Due(requests: map<int, Request>, candidates: seq<int>, now: int): set<int> {
    set id | id in candidates && IsDue(requests, id, now)
  }

  lemma OneMoreDue(requests: map<int, Request>, candidates: seq<int>, now: int, i: nat)
    requires i < |candidates|
    ensures |Due(requests, candidates[..i + 1], now)| == |Due(requests, candidates[..i], now)| +
            if candidates[i] !in candidates[..i] && IsDue(requests, candidates[i], now) then 1 else 0
  {
    var id := candidates[i];
    var before, after := Due(requests, candidates[..i], now), Due(requests, candidates[..i + 1], now);
    assert candidates[..i + 1] == candidates[..i] + [id];
    hide IsDue;
    if id !in candidates[..i] && IsDue(requests, id, now) {
      assert after == before + {id};
    } else {
      assert after == before;
    }
  }

  lemma DueIsThere(requests: map<int, Request>, id: int, now: int)
    ensures IsDue(requests, id, now) ==> id in requests && requests[id].status != Expired
    ensures id in requests && requests[id].status == Expired ==> !IsDue(requests, id, now)
  {
  }

  lemma SameRowSameDue(a: map<int, Request>, b: map<int, Request>, id: int, now: int)
    requires a.Keys == b.Keys && (id in a ==> a[id] == b[id])
    ensures IsDue(a, id, now) <==> IsDue(b, id, now)
  {
  }

  datatype Error = Missing | Forbidden | BadRequest | Conflict

  class CustomTimeRequests {
    const ttlMs: nat
    var now: nat
    var requests: map<int, Request>
    ghost var history: seq<Step>

    ghost function Snapshot(): State
      reads this
    {
      State(now, requests)
    }

    ghost predicate Valid()
      reads this
    {
      Snapshot() == Run(history, ttlMs)
    }

    constructor (ttlMs: nat)
      ensures Valid() && history == [] && this.ttlMs == ttlMs
    {
      this.ttlMs := ttlMs;
      now, requests, history := 0, map[], [];
    }

    ghost method Record(step: Step)
      modifies this`history
      ensures history == old(history) + [step]
      ensures Run(history, ttlMs) == Do(Run(old(history), ttlMs), step, ttlMs)
    {
      history := history + [step];
      assert history[..|history| - 1] == old(history);
    }

    /** Closes the pair's requests that ran out, one by one, then refuses a second pending one. */
    method CreateRequest(id: int, customer: int, tasker: int, service: string, date: int, time: string)
      returns (r: Result<int, Error>)
      requires Valid() && id !in requests
      modifies this
      ensures Valid() && history == old(history) + [Create(id, customer, tasker, service, date, time)]
      ensures r.Success? <==> MayCreate(old(Snapshot()), customer, tasker, date, time)
      ensures r.Success? ==>
        && id in requests && requests[id].status == Pending && r.value == requests[id].expiresAt == now + ttlMs
      ensures r.Success? <==>
        && customer != tasker && LiesAhead(date, time, now)
        && forall other :: other in old(requests) ==> !IsWaiting(old(requests)[other], customer, tasker, now)
      ensures r.Success? ==>
        && requests[id] == Request(customer, tasker, service, date, time, Pending, now + ttlMs, None)
        && requests.Keys == old(requests).Keys + {id}
      ensures r.Failure? ==> requests == old(requests)
    {
      CreateRule(Snapshot(), id, customer, tasker, service, date, time, ttlMs);
      hide LiesAhead, IsWaiting;
      Record(Create(id, customer, tasker, service, date, time));
      if customer == tasker {
        return Failure(Forbidden);
      }
      if date < now / MS_PER_DAY || IsPastStart(date, time, now) {
        return Failure(BadRequest);
      }
      var closed := ExpireStaleForPair(customer, tasker);
      if exists other :: other in closed && PendingFor(closed[other], customer, tasker) {
        assert exists other :: other in requests && PendingFor(requests[other], customer, tasker)
                               && requests[other].expiresAt > now;
        return Failure(Conflict);
      }
      assert forall other :: other in requests && PendingFor(requests[other], customer, tasker) ==>
        closed[other].status == Expired;
      requests := closed[id := Request(customer, tasker, service, date, time, Pending, now + ttlMs, None)];
      return Success(now + ttlMs);
    }

    method ExpireStaleForPair(customer: int, tasker: int) returns (closed: map<int, Request>)
      ensures closed == StaleExpired(requests, customer, tasker, now)
    {
      closed := requests;
      var stale := set id | id in requests && PendingFor(requests[id], customer, tasker)
                            && requests[id].expiresAt <= now;
      var left := stale;
      while exists id :: id in left
        invariant left <= stale && closed.Keys == requests.Keys
        invariant forall id :: id in requests ==>
          closed[id] == if id in stale - left then requests[id].(status := Expired) else requests[id]
        decreases left
      {
        var id :| id in left;
        closed, left := closed[id := closed[id].(status := Expired)], left - {id};
      }
      forall id | id in requests ensures closed[id] == StaleExpired(requests, customer, tasker, now)[id] {
        assert id !in left;
      }
    }

    method RespondToRequest(tasker: int, id: int, accept: bool) returns (r: Result<Status, Error>)
      requires Valid()
      modifies this
      ensures Valid() && history == old(history) + [Respond(tasker, id, accept)]
      ensures r.Success? <==> MayRespond(old(Snapshot()), tasker, id, accept)
      ensures r.Success? ==> id in requests && requests[id].status == r.value == if accept then Accepted else Rejected
      ensures r.Success? <==>
        && id in old(requests) && old(requests)[id].tasker == tasker && old(requests)[id].status == Pending
        && old(requests)[id].expiresAt > now
        && (accept ==> LiesAhead(old(requests)[id].date, old(requests)[id].time, now))
      ensures r.Success? ==>
        requests == old(requests)[id := if accept
                                        then old(requests)[id].(status := Accepted, expiresAt := now + ttlMs)
                                        else old(requests)[id].(status := Rejected)]
      ensures r.Failure? ==> requests == old(requests)
    {
      RespondRule(Snapshot(), tasker, id, accept, ttlMs);
      hide LiesAhead;
      Record(Respond(tasker, id, accept));
      if id !in requests || requests[id].tasker != tasker {
        return Failure(Missing);
      }
      var request := requests[id];
      if request.status != Pending || request.expiresAt <= now {
        return Failure(Conflict);
      }
      if accept && IsPastStart(request.date, request.time, now) {
        return Failure(Conflict);
      }
      if accept {
        requests := requests[id := request.(status := Accepted, expiresAt := now + ttlMs)];
      } else {
        requests := requests[id := request.(status := Rejected)];
      }
      return Success(requests[id].status);
    }

    method CancelRequest(customer: int, id: int) returns (r: Result<(), Error>)
      requires Valid()
      modifies this
      ensures Valid() && history == old(history) + [Cancel(customer, id)]
      ensures r.Success? ==> id in requests && requests[id].status == Cancelled && IsOpen(old(requests)[id].status)
      ensures r.Failure? <==> id !in old(requests) || old(requests)[id].customer != customer
                              || !IsOpen(old(requests)[id].status)
      ensures r.Success? <==>
        && id in old(requests) && old(requests)[id].customer == customer
        && (old(requests)[id].status == Pending || old(requests)[id].status == Accepted)
      ensures requests == if r.Success? then old(requests)[id := old(requests)[id].(status := Cancelled)]
                          else old(requests)
    {
      Record(Cancel(customer, id));
      if id !in requests || requests[id].customer != customer {
        return Failure(Missing);
      }
      if requests[id].status != Pending && requests[id].status != Accepted {
        return Failure(Conflict);
      }
      requests := requests[id := requests[id].(status := Cancelled)];
      return Success(());
    }

    /** The row is only marked if it is still accepted. */
    method MarkFulfilled(id: int, booking: int) returns (marked: bool)
      modifies this`requests
      ensures marked <==> id in old(requests) && old(requests)[id].status == Accepted
      ensures requests == if marked
                          then old(requests)[id := old(requests)[id].(status := Fulfilled, booking := Some(booking))]
                          else old(requests)
    {
      marked := id in requests && requests[id].status == Accepted;
      if marked {
        requests := requests[id := requests[id].(status := Fulfilled, booking := Some(booking))];
      }
    }

    /** The part of a booking transaction that spends a request: the checks, then the mark. */
    method SpendOn(claim: Claim, booking: int) returns (r: Result<(), Refusal>)
      requires Valid() && !Taken(Snapshot(), booking)
      modifies this
      ensures Valid() && history == old(history) + [Spend(claim, booking)]
      ensures r == (match AssertUsable(old(requests), now, claim)
                    case None => Success(())
                    case Some(refusal) => Failure(refusal))
      ensures r.Success? <==>
        && claim.request in old(requests) && old(requests)[claim.request].customer == claim.customer
        && old(requests)[claim.request].tasker == claim.tasker && old(requests)[claim.request].service == claim.service
        && old(requests)[claim.request].date == claim.date
        && ParseTimeToMinutes(old(requests)[claim.request].time) == ParseTimeToMinutes(claim.time)
        && old(requests)[claim.request].status == Accepted && old(requests)[claim.request].expiresAt > now
      ensures requests == if r.Success?
                          then old(requests)[claim.request :=
                            old(requests)[claim.request].(status := Fulfilled, booking := Some(booking))]
                          else old(requests)
    {
      RefusalsMean(requests, now, claim);
      hide ParseTimeToMinutes;
      Record(Spend(claim, booking));
      var refusal := AssertUsable(requests, now, claim);
      if refusal.Some? {
        return Failure(refusal.value);
      }
      var _ := MarkFulfilled(claim.request, booking);
      return Success(());
    }

    method ExpireOne(id: int) returns (closed: bool)
      requires Valid()
      modifies this
      ensures Valid() && history == old(history) + [Expire(id)] && now == old(now)
      ensures closed <==> IsDue(old(requests), id, now)
      ensures closed <==>
        && id in old(requests) && old(requests)[id].expiresAt <= now
        && (old(requests)[id].status == Pending || old(requests)[id].status == Accepted)
      ensures requests == if closed then old(requests)[id := old(requests)[id].(status := Expired)] else old(requests)
    {
      Record(Expire(id));
      closed := id in requests && requests[id].expiresAt <= now && IsOpen(requests[id].status);
      if closed {
        requests := requests[id := requests[id].(status := Expired)];
      }
    }

    /** The sweep: every candidate is looked at again before it is closed; the number is that of requests closed. */
    method ExpireDueRequests(candidates: seq<int>) returns (expired: nat)
      requires Valid()
      modifies this
      ensures Valid() && old(history) <= history && now == old(now) && requests.Keys == old(requests).Keys
      ensures forall id :: id in requests ==>
        requests[id] == if id in Due(old(requests), candidates, now) then old(requests)[id].(status := Expired)
                        else old(requests)[id]
      ensures expired == |Due(old(requests), candidates, now)|
    {
      hide Do, Run, IsDue;
      expired := 0;
      assert Due(requests, candidates[..0], now) == {};
      for i := 0 to |candidates|
        invariant Valid() && old(history) <= history && now == old(now) && requests.Keys == old(requests).Keys
        invariant expired == |Due(old(requests), candidates[..i], now)|
        invariant forall id :: id in requests ==>
          requests[id] == if id in Due(old(requests), candidates[..i], now) then old(requests)[id].(status := Expired)
                          else old(requests)[id]
      {
        var id := candidates[i];
        OneMoreDue(old(requests), candidates, now, i);
        assert candidates[..i + 1] == candidates[..i] + [id];
        DueIsThere(old(requests), id, now);
        if id in candidates[..i] && IsDue(old(requests), id, now) {
          DueIsThere(requests, id, now);
        } else {
          SameRowSameDue(requests, old(requests), id, now);
        }
        var closed := ExpireOne(id);
        if closed {
          expired := expired + 1;
        }
      }
      assert candidates[..|candidates|] == candidates;
    }
  }
}
