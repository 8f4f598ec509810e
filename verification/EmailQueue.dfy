/**
 * E-mails about disputes. Every worker reads a batch of rows, claims each row by
 * a compare-and-set on its attempts, sends, and then writes the outcome without
 * looking at the row again.
 */
module EmailQueue {
  import opened Common

  const MAX_ATTEMPTS: nat := 5
  const STALE_MS: nat := 600_000

  datatype Status = Pending | Sending | Sent | Failed

  datatype Row = Row(status: Status, attempts: nat, lastAttemptAt: int)

  /** A sweep: the staleness bound it computed at its start, and the attempts it read. */
  datatype Sweep = Sweep(staleBefore: int, seen: map<int, nat>)

  datatype Phase = Claimed | Mailed | Recorded

  /** One sweep's work on one row. */
  datatype Work = Work(sweep: int, row: int)

  /** `mails` lists the mails that left, by the work they left in. */
  datatype State = State(now: int, rows: map<int, Row>, sweeps: map<int, Sweep>, work: map<Work, Phase>,
                         mails: seq<Work>)

  datatype Step =
    | Wait(ms: nat)
    | Enqueue(row: int)
    | Read(sweep: int, chosen: set<int>)
    | ClaimRow(work: Work)
    | SendMail(work: Work)
    | Record(work: Work, succeeded: bool)

  const INITIAL: State := State(0, map[], map[], map[], [])

  predicate Sendable(r: Row, staleBefore: int) {
    r.status.Pending? || r.status.Failed? || (r.status.Sending? && r.lastAttemptAt <= staleBefore)
  }

  predicate MayClaim(s: State, w: Work) {
    && w.sweep in s.sweeps && w.row in s.sweeps[w.sweep].seen && w.row in s.rows && w !in s.work
    && s.rows[w.row].attempts == s.sweeps[w.sweep].seen[w.row]
    && Sendable(s.rows[w.row], s.sweeps[w.sweep].staleBefore)
  }

  /** Mailing succeeded or threw: a success is recorded after the mail left, a failure with or without one. */
  predicate MayRecord(s: State, w: Work, succeeded: bool) {
    w in s.work && w.row in s.rows && (s.work[w].Mailed? || (s.work[w].Claimed? && !succeeded))
  }

  /** The effect of one statement; a step that cannot happen now has none. */
  function Do(s: State, step: Step): State {
    match step
    case Wait(ms) => s.(now := s.now + ms)
    case Enqueue(row) => if row in s.rows then s else s.(rows := s.rows[row := Row(Pending, 0, 0)])
    case Read(sweep, chosen) =>
      // Any part of the rows: the batch size and the order decide which.
      if sweep in s.sweeps then s
      else
        var staleBefore := s.now - STALE_MS;
        s.(sweeps := s.sweeps[sweep := Sweep(staleBefore,
             map id | id in chosen && id in s.rows && s.rows[id].attempts < MAX_ATTEMPTS
                 && Sendable(s.rows[id], staleBefore)
               :: s.rows[id].attempts)])
    case ClaimRow(w) =>
      if MayClaim(s, w)
      then s.(rows := s.rows[w.row := Row(Sending, s.rows[w.row].attempts + 1, s.now)], work := s.work[w := Claimed])
      else s
    case SendMail(w) =>
      if w in s.work && s.work[w].Claimed? then s.(work := s.work[w := Mailed], mails := s.mails + [w]) else s
    case Record(w, succeeded) =>
      if MayRecord(s, w, succeeded)
      then s.(work := s.work[w := Recorded],
              rows := s.rows[w.row := s.rows[w.row].(status := if succeeded then Sent else Failed)])
      else s
  }

  /** The state after any schedule of statements of any sweeps. */
  function Run(steps: seq<Step>): State {
    if steps == [] then INITIAL else Do(Run(steps[..|steps| - 1]), steps[|steps| - 1])
  }

  // ---- What must hold ----

  function WorkOn(s: State, row: int): set<Work> {
    set w | w in s.work && w.row == row
  }

  /** How often a mail left for a row. */
  function MailCount(mails: seq<Work>, row: int): nat {
    if mails == [] then 0
    else MailCount(mails[..|mails| - 1], row) + (if mails[|mails| - 1].row == row then 1 else 0)
  }

  predicate RowsOk(s: State) {
    forall id :: id in s.rows ==> s.rows[id].attempts == |WorkOn(s, id)| <= MAX_ATTEMPTS
  }

  predicate SweepsOk(s: State) {
    && (forall i, id :: i in s.sweeps && id in s.sweeps[i].seen ==> s.sweeps[i].seen[id] < MAX_ATTEMPTS)
    && (forall w :: w in s.work ==> w.row in s.rows)
  }

  /** No work mails twice. */
  predicate MailsOk(s: State) {
    && (forall i :: 0 <= i < |s.mails| ==> s.mails[i] in s.work && !s.work[s.mails[i]].Claimed?)
    && (forall i, j :: 0 <= i < j < |s.mails| ==> s.mails[i] != s.mails[j])
  }

  predicate Inv(s: State) {
    RowsOk(s) && SweepsOk(s) && MailsOk(s)
  }

  lemma WorkOnGrows(s: State, step: Step, id: int)
    requires Inv(s)
    ensures WorkOn(Do(s, step), id) ==
            WorkOn(s, id) + if step.ClaimRow? && MayClaim(s, step.work) && step.work.row == id then {step.work} else {}
  {
  }

  lemma StepKeepsRows(s: State, step: Step)
    requires Inv(s)
    ensures RowsOk(Do(s, step))
  {
    var s' := Do(s, step);
    hide WorkOn, MailsOk;
    forall id | id in s'.rows ensures s'.rows[id].attempts == |WorkOn(s', id)| <= MAX_ATTEMPTS {
      WorkOnGrows(s, step, id);
      if id !in s.rows {
        NoWorkOnNewRow(s, id);
      } else if step.ClaimRow? {
        NotYetWork(s, step.work, id);
      }
    }
  }

  lemma NotYetWork(s: State, w: Work, id: int)
    ensures w !in s.work ==> w !in WorkOn(s, id)
  {
  }

  lemma NoWorkOnNewRow(s: State, id: int)
    requires SweepsOk(s) && id !in s.rows
    ensures WorkOn(s, id) == {}
  {
  }

  lemma StepKeepsSweeps(s: State, step: Step)
    requires Inv(s)
    ensures SweepsOk(Do(s, step))
  {
  }

  lemma StepKeepsMails(s: State, step: Step)
    requires Inv(s)
    ensures MailsOk(Do(s, step))
  {
    hide RowsOk, SweepsOk;
    if step.SendMail? && step.work in s.work && s.work[step.work].Claimed? {
      assert step.work !in s.mails;
    }
  }

  lemma {:induction false} RunKeepsInv(steps: seq<Step>)
    ensures Inv(Run(steps))
  {
    if steps != [] {
      var before, step := Run(steps[..|steps| - 1]), steps[|steps| - 1];
      RunKeepsInv(steps[..|steps| - 1]);
      hide Do;
      StepKeepsRows(before, step);
      StepKeepsSweeps(before, step);
      StepKeepsMails(before, step);
    }
  }

  function MailsFor(mails: seq<Work>, row: int): set<Work> {
    set w | w in mails && w.row == row
  }

  lemma MailsForLast(mails: seq<Work>, row: int)
    requires mails != []
    ensures var last := mails[|mails| - 1];
            MailsFor(mails, row) == MailsFor(mails[..|mails| - 1], row) + if last.row == row then {last} else {}
  {
    assert mails == mails[..|mails| - 1] + [mails[|mails| - 1]];
  }

  lemma {:induction false} MailCountIsSize(mails: seq<Work>, row: int)
    requires forall i, j :: 0 <= i < j < |mails| ==> mails[i] != mails[j]
    ensures MailCount(mails, row) == |MailsFor(mails, row)|
  {
    if mails != [] {
      var last, rest := mails[|mails| - 1], mails[..|mails| - 1];
      MailCountIsSize(rest, row);
      MailsForLast(mails, row);
      assert last !in MailsFor(rest, row);
      hide MailsFor;
    }
  }

  lemma SubsetSize<T>(small: set<T>, large: set<T>)
    requires small <= large
    ensures |small| <= |large|
  {
    assert large == small + (large - small);
  }

  // ---- Main results ----

  /** In every schedule no row is mailed more than five times: each mail belongs to a claim, and each claim counts. */
  lemma AtMostFiveMails(steps: seq<Step>, row: int)
    requires row in Run(steps).rows
    ensures MailCount(Run(steps).mails, row) <= Run(steps).rows[row].attempts <= MAX_ATTEMPTS
  {
    RunKeepsInv(steps);
    var s := Run(steps);
    MailCountIsSize(s.mails, row);
    SubsetSize(MailsFor(s.mails, row), WorkOn(s, row));
  }

  /** Work on a row whose outcome has not been written. */
  predicate OpenWork(s: State, w: Work) {
    w in s.work && !s.work[w].Recorded?
  }

  function After(s: State, steps: seq<Step>): State
    decreases |steps|
  {
    if steps == [] then s else After(Do(s, steps[0]), steps[1..])
  }

  lemma {:induction false} SettledWithoutOpenWork(s: State, steps: seq<Step>, row: int)
    requires row in s.rows && s.rows[row].status == Sent
    requires forall w :: OpenWork(s, w) ==> w.row != row
    ensures row in After(s, steps).rows && After(s, steps).rows[row] == s.rows[row]
    decreases |steps|
  {
    if steps != [] {
      var next := Do(s, steps[0]);
      forall w | OpenWork(next, w) ensures w.row != row {
        assert OpenWork(s, w) || (steps[0].ClaimRow? && steps[0].work == w && MayClaim(s, w));
      }
      SettledWithoutOpenWork(next, steps[1..], row);
    }
  }

  /**
   * A sent row stays as it is, whatever follows, exactly when no other claim on
   * it is still unreported: the outcome is written without comparing anything.
   */
  lemma SentIsFinalIffNoOpenWork(s: State, row: int)
    requires SweepsOk(s) && row in s.rows && s.rows[row].status == Sent
    ensures (forall steps :: row in After(s, steps).rows && After(s, steps).rows[row] == s.rows[row])
       <==> (forall w :: OpenWork(s, w) ==> w.row != row)
  {
    if w :| OpenWork(s, w) && w.row == row {
      var steps := [Record(w, false)];
      assert After(s, steps) == After(Do(s, steps[0]), steps[1..]);
      assert After(s, steps).rows[row].status == Failed;
    } else {
      forall steps: seq<Step> ensures row in After(s, steps).rows && After(s, steps).rows[row] == s.rows[row] {
        SettledWithoutOpenWork(s, steps, row);
      }
    }
  }

  const EARLY: Work := Work(1, 0)
  const LATE: Work := Work(2, 0)
  const AGAIN: Work := Work(3, 0)

  /** A sweep claims the row and hangs for ten minutes; a second one mails it and reports success. */
  const TAKEOVER: seq<Step> := [
    Enqueue(0), Read(1, {0}), ClaimRow(EARLY), Wait(STALE_MS), Read(2, {0}), ClaimRow(LATE), SendMail(LATE),
    Record(LATE, true)]

  /** The first sweep then reports its failure, and a third one mails the row once more. */
  const AFTERMATH: seq<Step> := [Record(EARLY, false), Read(3, {0}), ClaimRow(AGAIN), SendMail(AGAIN)]

  lemma Next(s: State, steps: seq<Step>, k: nat) returns (s': State)
    requires k < |steps|
    ensures s' == Do(s, steps[k]) && After(s, steps[k..]) == After(s', steps[k + 1..])
  {
    s' := Do(s, steps[k]);
    assert steps[k..][1..] == steps[k + 1..];
  }

  /** What the first sweep reads is the row's single attempt count. */
  lemma ReadOne(s: State, sweep: int)
    requires s.rows.Keys == {0} && s.rows[0].attempts < MAX_ATTEMPTS && Sendable(s.rows[0], s.now - STALE_MS)
             && sweep !in s.sweeps
    ensures Do(s, Read(sweep, {0})) ==
            s.(sweeps := s.sweeps[sweep := Sweep(s.now - STALE_MS, map[0 := s.rows[0].attempts])])
  {
    var seen := Do(s, Read(sweep, {0})).sweeps[sweep].seen;
    assert seen.Keys == {0} && seen[0] == s.rows[0].attempts;
    assert seen == map[0 := s.rows[0].attempts];
  }

  lemma TakeoverLeadsToSent() returns (s: State)
    ensures s == After(INITIAL, TAKEOVER)
    ensures s == State(STALE_MS, map[0 := Row(Sent, 2, STALE_MS)],
                       map[1 := Sweep(0 - STALE_MS, map[0 := 0]), 2 := Sweep(0, map[0 := 1])],
                       map[EARLY := Claimed, LATE := Recorded], [LATE])
  {
    hide After;
    s := SecondSweepClaims();
    s := Next(s, TAKEOVER, 6);
    s := Next(s, TAKEOVER, 7);
    assert s.rows == map[0 := Row(Sent, 2, STALE_MS)];
    NothingLeft(s, TAKEOVER);
  }

  lemma SecondSweepClaims() returns (s: State)
    ensures After(INITIAL, TAKEOVER) == After(s, TAKEOVER[6..])
    ensures s == State(STALE_MS, map[0 := Row(Sending, 2, STALE_MS)],
                       map[1 := Sweep(0 - STALE_MS, map[0 := 0]), 2 := Sweep(0, map[0 := 1])],
                       map[EARLY := Claimed, LATE := Claimed], [])
  {
    hide After;
    s := FirstSweepHangs();
    ReadOne(s, 2);
    s := Next(s, TAKEOVER, 4);
    s := Next(s, TAKEOVER, 5);
    assert s.rows == map[0 := Row(Sending, 2, STALE_MS)];
  }

  lemma NothingLeft(s: State, steps: seq<Step>)
    ensures After(s, steps[|steps|..]) == s
  {
  }

  lemma FirstSweepHangs() returns (s: State)
    ensures After(INITIAL, TAKEOVER) == After(s, TAKEOVER[4..])
    ensures s == State(STALE_MS, map[0 := Row(Sending, 1, 0)], map[1 := Sweep(0 - STALE_MS, map[0 := 0])],
                       map[EARLY := Claimed], [])
  {
    hide After;
    assert TAKEOVER[0..] == TAKEOVER;
    s := Next(INITIAL, TAKEOVER, 0);
    assert s.rows == map[0 := Row(Pending, 0, 0)];
    ReadOne(s, 1);
    s := Next(s, TAKEOVER, 1);
    s := Next(s, TAKEOVER, 2);
    assert s.rows == map[0 := Row(Sending, 1, 0)];
    s := Next(s, TAKEOVER, 3);
  }

  /** So a row whose mail was reported as sent can be mailed a second time. */
  lemma SentCanBeMailedAgain()
    ensures var s := After(INITIAL, TAKEOVER); var s' := After(s, AFTERMATH);
            && 0 in s.rows && s.rows[0].status == Sent && MailCount(s.mails, 0) == 1
            && MailCount(s'.mails, 0) == 2
  {
    hide After;
    var s := TakeoverLeadsToSent();
    var s' := s;
    assert AFTERMATH[0..] == AFTERMATH;
    s' := Next(s', AFTERMATH, 0);
    assert s'.rows == map[0 := Row(Failed, 2, STALE_MS)];
    ReadOne(s', 3);
    s' := Next(s', AFTERMATH, 1);
    s' := Next(s', AFTERMATH, 2);
    s' := Next(s', AFTERMATH, 3);
    NothingLeft(s', AFTERMATH);
    assert s'.mails == [LATE, AGAIN];
    assert [LATE, AGAIN][..1] == [LATE] && [LATE][..0] == [];
  }

  // ---- What the statements take ----

  /** Waiting or failed, or left in sending since ten minutes before the sweep began. */
  predicate IsFree(r: Row, sweptAt: int) {
    match r.status
    case Pending => true
    case Failed => true
    case Sending => sweptAt - r.lastAttemptAt >= 600_000
    case Sent => false
  }

  /** A sweep reads once, and exactly those of the chosen rows that are free and were tried fewer than five times. */
  lemma ReadRule(s: State, sweep: int, chosen: set<int>, row: int)
    ensures sweep in s.sweeps ==> Do(s, Read(sweep, chosen)) == s
    ensures sweep !in s.sweeps ==>
            var s' := Do(s, Read(sweep, chosen));
            && sweep in s'.sweeps && s'.sweeps[sweep].staleBefore == s.now - 600_000
            && (row in s'.sweeps[sweep].seen <==>
                row in chosen && row in s.rows && s.rows[row].attempts < 5 && IsFree(s.rows[row], s.now))
            && (row in s'.sweeps[sweep].seen ==> s'.sweeps[sweep].seen[row] == s.rows[row].attempts)
            && s' == s.(sweeps := s'.sweeps)
  {
  }

  /** A claim takes effect exactly on a row the sweep read, not tried since and still free; it counts the attempt. */
  lemma ClaimRule(s: State, w: Work)
    requires w !in s.work
    ensures var s' := Do(s, ClaimRow(w));
            && (w in s'.work <==>
                && w.sweep in s.sweeps && w.row in s.rows && w.row in s.sweeps[w.sweep].seen
                && s.sweeps[w.sweep].seen[w.row] == s.rows[w.row].attempts
                && IsFree(s.rows[w.row], s.sweeps[w.sweep].staleBefore + 600_000))
            && s' == if w in s'.work
                     then s.(work := s.work[w := Claimed],
                             rows := s.rows[w.row := Row(Sending, s.rows[w.row].attempts + 1, s.now)])
                     else s
  {
  }

  /** An outcome is written whatever the row says by then: sent after a mail, failed otherwise; attempts stay. */
  lemma RecordRule(s: State, w: Work, succeeded: bool)
    requires w in s.work && w.row in s.rows
    ensures Do(s, Record(w, succeeded)) ==
            if s.work[w] == Mailed || (s.work[w] == Claimed && !succeeded)
            then s.(work := s.work[w := Recorded],
                    rows := s.rows[w.row := Row(if succeeded then Sent else Failed, s.rows[w.row].attempts,
                                                s.rows[w.row].lastAttemptAt)])
            else s
  {
  }

  lemma {:induction false} BoundsAreOld(steps: seq<Step>, sweep: int)
    requires sweep in Run(steps).sweeps
    ensures Run(steps).sweeps[sweep].staleBefore <= Run(steps).now - 600_000
  {
    if steps != [] {
      var before, step := Run(steps[..|steps| - 1]), steps[|steps| - 1];
      if sweep in before.sweeps {
        BoundsAreOld(steps[..|steps| - 1], sweep);
      }
      hide Sendable, MayClaim, MayRecord;
    }
  }

  /** In every schedule: a row that is being mailed is taken over only ten minutes after its last claim, or later. */
  lemma TakenOverAfterTenMinutes(steps: seq<Step>, w: Work)
    requires w !in Run(steps).work && w in Do(Run(steps), ClaimRow(w)).work
    requires w.row in Run(steps).rows && Run(steps).rows[w.row].status == Sending
    ensures Run(steps).now >= Run(steps).rows[w.row].lastAttemptAt + 600_000
  {
    ClaimRule(Run(steps), w);
    BoundsAreOld(steps, w.sweep);
  }

  // ---- The worker ----

  /** What mailing one row came to. */
  datatype Mailing = Delivered | DeliveredThenFailed | NotDelivered

  /** The delivery rows; `history` is the schedule of statements so far. */
  class DisputeEmailWorker {
    var now: int
    var rows: map<int, Row>
    var sweeps: map<int, Sweep>
    var work: map<Work, Phase>
    ghost var mails: seq<Work>
    ghost var history: seq<Step>

    ghost function Snapshot(): State
      reads this
    {
      State(now, rows, sweeps, work, mails)
    }

    ghost predicate Valid()
      reads this
    {
      Snapshot() == Run(history)
    }

    constructor ()
      ensures Valid() && history == []
    {
      now, rows, sweeps, work, mails, history := 0, map[], map[], map[], [], [];
    }

    ghost method Note(step: Step)
      modifies this`history
      ensures history == old(history) + [step]
      ensures Run(history) == Do(Run(old(history)), step)
    {
      history := history + [step];
      assert history[..|history| - 1] == old(history);
    }

    /** One statement of some sweep. */
    method Apply(step: Step)
      requires Valid()
      modifies this
      ensures Valid() && history == old(history) + [step]
      ensures Snapshot() == Do(old(Snapshot()), step)
    {
      Note(step);
      match step {
        case Wait(ms) => now := now + ms;
        case Enqueue(row) =>
          if row !in rows {
            rows := rows[row := Row(Pending, 0, 0)];
          }
        case Read(sweep, chosen) =>
          if sweep !in sweeps {
            var staleBefore := now - STALE_MS;
            var seen := map id | id in chosen && id in rows && rows[id].attempts < MAX_ATTEMPTS
                                 && Sendable(rows[id], staleBefore) :: rows[id].attempts;
            sweeps := sweeps[sweep := Sweep(staleBefore, seen)];
          }
        case ClaimRow(w) =>
          if w.sweep in sweeps && w.row in sweeps[w.sweep].seen && w.row in rows && w !in work {
            var row := rows[w.row];
            if row.attempts == sweeps[w.sweep].seen[w.row] && Sendable(row, sweeps[w.sweep].staleBefore) {
              rows := rows[w.row := Row(Sending, row.attempts + 1, now)];
              work := work[w := Claimed];
            }
          }
        case SendMail(w) =>
          if w in work && work[w].Claimed? {
            work := work[w := Mailed];
            mails := mails + [w];
          }
        case Record(w, succeeded) =>
          if w in work && w.row in rows && (work[w].Mailed? || (work[w].Claimed? && !succeeded)) {
            work := work[w := Recorded];
            rows := rows[w.row := rows[w.row].(status := if succeeded then Sent else Failed)];
          }
      }
    }

    /** Whatever other sweeps do meanwhile. */
    method Interfere(others: seq<Step>, sweep: int)
      requires Valid() && sweep in sweeps
      requires forall i :: 0 <= i < |others| ==> !Concerns(others[i], sweep)
      modifies this
      ensures Valid() && history == old(history) + others
      ensures sweep in sweeps && sweeps[sweep] == old(sweeps[sweep])
      ensures SameWork(old(work), work, sweep) && SameMails(old(mails), mails, sweep)
    {
      for n := 0 to |others|
        invariant Valid() && history == old(history) + others[..n]
        invariant sweep in sweeps && sweeps[sweep] == old(sweeps[sweep])
        invariant SameWork(old(work), work, sweep) && SameMails(old(mails), mails, sweep)
      {
        Apply(others[n]);
      }
    }

    /**
     * Works off the rows one sweep has read, others acting between any two of its
     * statements. A row is mailed only after this sweep's claim took effect, and
     * every claim is reported; the number returned is that of successes reported.
     */
    method ProcessEmailDeliveries(sweep: int, chosen: set<int>, mailing: int -> Mailing, interference: nat -> seq<Step>)
      returns (sent: nat)
      requires Valid() && sweep !in sweeps && (forall w :: w in work ==> w.sweep != sweep)
      requires forall n, i :: 0 <= i < |interference(n)| ==> !Concerns(interference(n)[i], sweep)
      modifies this
      ensures Valid() && old(history) <= history
      ensures sweep in sweeps
      ensures forall w: Work :: w in work && w.sweep == sweep ==> work[w].Recorded? && w.row in sweeps[sweep].seen
      ensures forall id :: id in sweeps[sweep].seen ==> IsHandled(history, work, mails, Work(sweep, id), mailing(id))
      ensures sent == |Reported(work, sweep, mailing)|
    {
      hide Run, Reported, IsHandled, SameOtherMails, SameWork;
      ReadTouchesNoWork(Snapshot(), sweep, chosen);
      hide Do;
      Apply(Read(sweep, chosen));
      sent := 0;
      var seen := sweeps[sweep].seen;
      var left, n := seen.Keys, 0;
      NothingReported(work, sweep, mailing);
      while exists id :: id in left
        invariant Valid() && old(history) <= history
        invariant left <= seen.Keys
        invariant sweep in sweeps && sweeps[sweep].seen == seen
        invariant AllRecorded(work, sweep, seen.Keys - left)
        invariant AllHandled(history, work, mails, sweep, seen.Keys - left, mailing)
        invariant sent == |Reported(work, sweep, mailing)|
        decreases left
      {
        var id :| id in left;
        ghost var before, w := work, Work(sweep, id);
        ghost var steps, sentBefore := history, mails;
        var reported := Deliver(Work(sweep, id), mailing(id), interference(n), interference(n + 1));
        DeliveredIsHandled(steps + interference(n), interference(n + 1), history, work, mails, w, mailing(id));
        SweepGoesOn(steps, history, before, work, sentBefore, mails, w, seen.Keys - left, mailing);
        if reported {
          sent := sent + 1;
        }
        left, n := left - {id}, n + 2;
      }
    }

    /** Mails a claimed row and reports what mailing came to; nothing else of the sweep's changes. */
    method MailAndReport(w: Work, mailing: Mailing, more: seq<Step>)
      requires Valid() && w.sweep in sweeps && w in work && work[w].Claimed? && w !in mails
      requires forall i :: 0 <= i < |more| ==> !Concerns(more[i], w.sweep)
      modifies this
      ensures Valid()
      ensures history == old(history) + (if mailing.NotDelivered? then [] else [SendMail(w)])
                         + more + [Record(w, mailing.Delivered?)]
      ensures w.sweep in sweeps && sweeps[w.sweep] == old(sweeps[w.sweep])
      ensures w in work && work[w].Recorded? && (w in mails <==> !mailing.NotDelivered?)
      ensures SameWork(old(work) - {w}, work - {w}, w.sweep) && SameOtherMails(old(mails), mails, w)
    {
      hide Run, Do;
      if mailing.Delivered? || mailing.DeliveredThenFailed? {
        MailTouchesOne(Snapshot(), w);
        Apply(SendMail(w));
      }
      Interfere(more, w.sweep);
      WorkHasItsRow(history, w);
      RecordTouchesOne(Snapshot(), w, mailing.Delivered?);
      Apply(Record(w, mailing.Delivered?));
    }

    /**
     * Claims one row, mails it and reports; true exactly when a success
     * was reported. No mail leaves without a claim.
     */
    method Deliver(w: Work, mailing: Mailing, others: seq<Step>, more: seq<Step>) returns (reported: bool)
      requires Valid() && w.sweep in sweeps && w !in work
      requires forall i :: 0 <= i < |others| ==> !Concerns(others[i], w.sweep)
      requires forall i :: 0 <= i < |more| ==> !Concerns(more[i], w.sweep)
      modifies this
      ensures Valid()
      ensures history == old(history) + others + [ClaimRow(w)]
                         + if w !in work then []
                           else (if mailing.NotDelivered? then [] else [SendMail(w)])
                                + more + [Record(w, mailing.Delivered?)]
      ensures w.sweep in sweeps && sweeps[w.sweep] == old(sweeps[w.sweep])
      ensures w in work ==> work[w].Recorded?
      ensures w in mails <==> w in work && !mailing.NotDelivered?
      ensures reported <==> w in work && mailing.Delivered?
      ensures SameWork(old(work) - {w}, work - {w}, w.sweep) && SameOtherMails(old(mails), mails, w)
    {
      hide Run, Do;
      NoMailBeforeWork(history, w);
      Interfere(others, w.sweep);
      ClaimTouchesOne(Snapshot(), w);
      Apply(ClaimRow(w));
      if w !in work {
        return false;
      }
      MailAndReport(w, mailing, more);
      return mailing.Delivered?;
    }
  }

  /** A claim was tried; if it took effect, mailing was reported as it went, and a mail left exactly if it got out. */
  predicate IsHandled(history: seq<Step>, work: map<Work, Phase>, mails: seq<Work>, w: Work, mailing: Mailing) {
    && ClaimRow(w) in history && (w in work ==> Record(w, mailing.Delivered?) in history)
    && (w in mails <==> w in work && (mailing.Delivered? || mailing.DeliveredThenFailed?))
  }

  lemma DeliveredIsHandled(before: seq<Step>, more: seq<Step>, history: seq<Step>, work: map<Work, Phase>,
                           mails: seq<Work>, w: Work, mailing: Mailing)
    requires history == before + [ClaimRow(w)]
                        + if w !in work then []
                          else (if mailing.NotDelivered? then [] else [SendMail(w)])
                               + more + [Record(w, mailing.Delivered?)]
    requires w in mails <==> w in work && !mailing.NotDelivered?
    ensures IsHandled(history, work, mails, w, mailing)
  {
    assert history[|before|] == ClaimRow(w);
    if w in work {
      assert history[|history| - 1] == Record(w, mailing.Delivered?);
    }
  }

  predicate AllHandled(history: seq<Step>, work: map<Work, Phase>, mails: seq<Work>, sweep: int, rows: set<int>,
                       mailing: int -> Mailing) {
    forall id :: id in rows ==> IsHandled(history, work, mails, Work(sweep, id), mailing(id))
  }

  /** The mails of the sweep's work on other rows, no more and no fewer. */
  ghost predicate SameOtherMails(before: seq<Work>, after: seq<Work>, w: Work) {
    forall v: Work :: v.sweep == w.sweep && v != w ==> (v in after <==> v in before)
  }

  lemma AllHandledAfter(steps: seq<Step>, history: seq<Step>, before: map<Work, Phase>, after: map<Work, Phase>,
                        sentBefore: seq<Work>, mails: seq<Work>, w: Work, rows: set<int>, mailing: int -> Mailing)
    requires AllHandled(steps, before, sentBefore, w.sweep, rows, mailing)
    requires steps <= history && SameWork(before - {w}, after - {w}, w.sweep) && SameOtherMails(sentBefore, mails, w)
    requires IsHandled(history, after, mails, w, mailing(w.row))
    ensures AllHandled(history, after, mails, w.sweep, rows + {w.row}, mailing)
  {
    forall id | id in rows && id != w.row ensures IsHandled(history, after, mails, Work(w.sweep, id), mailing(id)) {
      var v := Work(w.sweep, id);
      assert IsHandled(steps, before, sentBefore, v, mailing(id));
      assert v in after <==> v in before by {
        assert v in after - {w} <==> v in before - {w};
      }
    }
  }

  lemma SweepGoesOn(steps: seq<Step>, history: seq<Step>, before: map<Work, Phase>, after: map<Work, Phase>,
                    sentBefore: seq<Work>, mails: seq<Work>, w: Work, rows: set<int>, mailing: int -> Mailing)
    requires AllRecorded(before, w.sweep, rows) && AllHandled(steps, before, sentBefore, w.sweep, rows, mailing)
    requires w !in before && steps <= history
    requires SameWork(before - {w}, after - {w}, w.sweep) && SameOtherMails(sentBefore, mails, w)
    requires (w in after ==> after[w].Recorded?) && IsHandled(history, after, mails, w, mailing(w.row))
    ensures AllRecorded(after, w.sweep, rows + {w.row})
    ensures AllHandled(history, after, mails, w.sweep, rows + {w.row}, mailing)
    ensures |Reported(after, w.sweep, mailing)|
         == |Reported(before, w.sweep, mailing)| + if w in after && mailing(w.row).Delivered? then 1 else 0
  {
    ReportedAfter(before, after, w, mailing);
    AllRecordedAfter(before, after, w, rows);
    AllHandledAfter(steps, history, before, after, sentBefore, mails, w, rows, mailing);
    hide *;
  }

  /** Whatever a sweep has claimed it has reported, and only rows among these. */
  predicate AllRecorded(work: map<Work, Phase>, sweep: int, rows: set<int>) {
    forall w :: w in work && w.sweep == sweep ==> work[w].Recorded? && w.row in rows
  }

  lemma AllRecordedAfter(before: map<Work, Phase>, after: map<Work, Phase>, w: Work, rows: set<int>)
    requires AllRecorded(before, w.sweep, rows) && SameWork(before - {w}, after - {w}, w.sweep)
    requires w in after ==> after[w].Recorded?
    ensures AllRecorded(after, w.sweep, rows + {w.row})
  {
    forall v: Work | v in after && v.sweep == w.sweep ensures after[v].Recorded? && v.row in rows + {w.row} {
      if v != w {
        assert v in after - {w};
        assert v in before - {w} && before[v] == after[v];
      }
    }
  }

  lemma ReadTouchesNoWork(s: State, sweep: int, chosen: set<int>)
    requires sweep !in s.sweeps
    ensures Do(s, Read(sweep, chosen)).work == s.work && sweep in Do(s, Read(sweep, chosen)).sweeps
  {
  }

  lemma NothingReported(work: map<Work, Phase>, sweep: int, mailing: int -> Mailing)
    requires forall w :: w in work ==> w.sweep != sweep
    ensures Reported(work, sweep, mailing) == {}
  {
  }

  lemma ClaimTouchesOne(s: State, w: Work)
    requires w !in s.work
    ensures var s' := Do(s, ClaimRow(w));
            s'.sweeps == s.sweeps && s'.mails == s.mails && s'.work in {s.work, s.work[w := Claimed]}
  {
  }

  lemma MailTouchesOne(s: State, w: Work)
    requires w in s.work && s.work[w] == Claimed
    ensures var s' := Do(s, SendMail(w));
            s'.sweeps == s.sweeps && s'.mails == s.mails + [w] && s'.work == s.work[w := Mailed]
  {
  }

  lemma RecordTouchesOne(s: State, w: Work, succeeded: bool)
    requires w in s.work && w.row in s.rows && (s.work[w] == Mailed || (s.work[w] == Claimed && !succeeded))
    ensures var s' := Do(s, Record(w, succeeded));
            s'.sweeps == s.sweeps && s'.mails == s.mails && s'.work == s.work[w := Recorded]
  {
  }

  lemma ReportedAfter(before: map<Work, Phase>, after: map<Work, Phase>, w: Work, mailing: int -> Mailing)
    requires w !in before && SameWork(before - {w}, after - {w}, w.sweep)
    ensures Reported(after, w.sweep, mailing) ==
            Reported(before, w.sweep, mailing) + if w in after && mailing(w.row).Delivered? then {w.row} else {}
    ensures w.row !in Reported(before, w.sweep, mailing)
  {
    forall v: Work | v.sweep == w.sweep && v != w ensures v in after <==> v in before {
      assert v in after - {w} <==> v in before - {w};
    }
    var gained := if w in after && mailing(w.row).Delivered? then {w.row} else {};
    forall row | row in Reported(after, w.sweep, mailing) ensures row in Reported(before, w.sweep, mailing) + gained {
      assert Work(w.sweep, row) in after;
    }
    forall row | row in Reported(before, w.sweep, mailing) ensures row in Reported(after, w.sweep, mailing) {
      assert Work(w.sweep, row) in after;
    }
  }

  /** A sweep's own work, untouched. */
  ghost predicate SameWork(before: map<Work, Phase>, after: map<Work, Phase>, sweep: int) {
    forall w: Work :: w.sweep == sweep ==> (w in after <==> w in before) && (w in after ==> after[w] == before[w])
  }

  /** The mails of a sweep, no more and no fewer. */
  ghost predicate SameMails(before: seq<Work>, after: seq<Work>, sweep: int) {
    forall w: Work :: w.sweep == sweep ==> (w in after <==> w in before)
  }

  lemma NoMailBeforeWork(steps: seq<Step>, w: Work)
    requires w !in Run(steps).work
    ensures w !in Run(steps).mails
  {
    RunKeepsInv(steps);
  }

  lemma WorkHasItsRow(steps: seq<Step>, w: Work)
    requires w in Run(steps).work
    ensures w.row in Run(steps).rows
  {
    RunKeepsInv(steps);
  }

  predicate Concerns(step: Step, sweep: int) {
    || (step.Read? && step.sweep == sweep)
    || ((step.ClaimRow? || step.SendMail? || step.Record?) && step.work.sweep == sweep)
  }

  /** The rows a sweep reported as sent. */
  ghost function Reported(work: map<Work, Phase>, sweep: int, mailing: int -> Mailing): set<int> {
    set w | w in work && w.sweep == sweep && mailing(w.row).Delivered? :: w.row
  }
}
