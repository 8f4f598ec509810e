/**
 * Settlement proposals of one dispute: an administrator proposes, both
 * participants answer, deadlines pass, and the dispute is withdrawn, resolved
 * or taken up again in between. A resolution may refund the payment; what the
 * payment provider then reports, possibly late and more than once, is written
 * to the resolution and can close or reopen the dispute.
 */
module Settlement {
  import opened Common

  datatype Status = Draft | Proposed | Accepted | Rejected | Expired | Cancelled | Superseded
    | Processing | Applied | Failed

  /** How a resolution pays the customer back, if it does. */
  datatype Means = WithoutRefund | ByCard | ByWallet | InCash

  /** `issued` once the transaction of a refund by card or wallet exists; reports refer to it. */
  datatype Resolution = Resolution(status: Status, dueAt: int, means: Means, issued: bool)

  datatype Answer = Answer(resolution: int, user: int, accepts: bool)

  /** The participants of the booking, and the one of them who opened the dispute. */
  datatype Parties = Parties(customer: int, tasker: int, filer: int)

  datatype DisputeStatus = Active | Resolved | Dismissed | Withdrawn

  datatype State = State(now: int, dispute: DisputeStatus, resolutions: map<int, Resolution>, answers: seq<Answer>)

  const INITIAL: State := State(0, Active, map[], [])

  /** What the provider says about a refund. */
  datatype Report = Succeeds | Pends | Fails

  datatype Step =
    | Wait(ms: nat)
    | SaveDraft(resolution: int)
    | Propose(resolution: int, dueAt: int)
    | Respond(user: int, resolution: int, accepts: bool)
    | Expire(resolution: int)
    | Withdraw(user: int)
    | Resolve(resolution: int, means: Means, dismisses: bool)
    | Issue(resolution: int)
    | CannotIssue(resolution: int)
    | SettleWallet(resolution: int)
    | ConfirmCash(resolution: int)
    | ReportRefund(resolution: int, report: Report)
    | TakeUpAgain

  predicate HasAnswered(s: State, user: int, resolution: int) {
    exists i :: 0 <= i < |s.answers| && s.answers[i].user == user && s.answers[i].resolution == resolution
  }

  predicate AcceptedBy(answers: seq<Answer>, resolution: int, user: int) {
    Answer(resolution, user, true) in answers
  }

  predicate AcceptedByOther(s: State, user: int, resolution: int) {
    exists i :: 0 <= i < |s.answers| && s.answers[i].resolution == resolution && s.answers[i].accepts
                && s.answers[i].user != user
  }

  /** All proposed resolutions get another status. */
  function Retired(resolutions: map<int, Resolution>, status: Status): map<int, Resolution> {
    map id | id in resolutions ::
      if resolutions[id].status == Proposed then resolutions[id].(status := status) else resolutions[id]
  }

  predicate MayRespond(s: State, p: Parties, user: int, resolution: int) {
    && s.dispute.Active? && user in {p.customer, p.tasker}
    && resolution in s.resolutions && s.resolutions[resolution].status == Proposed
    && s.now <= s.resolutions[resolution].dueAt && !HasAnswered(s, user, resolution)
  }

  function Responded(s: State, user: int, resolution: int, accepts: bool): State
    requires resolution in s.resolutions
  {
    var status := if !accepts then Rejected
                  else if AcceptedByOther(s, user, resolution) then Accepted
                  else s.resolutions[resolution].status;
    s.(answers := s.answers + [Answer(resolution, user, accepts)],
       resolutions := s.resolutions[resolution := s.resolutions[resolution].(status := status)])
  }

  predicate MayPropose(s: State, resolution: int, dueAt: int) {
    s.dispute.Active? && dueAt > s.now && (resolution in s.resolutions ==> s.resolutions[resolution].status == Draft)
  }

  predicate AnyProcessing(s: State) {
    exists id :: id in s.resolutions && s.resolutions[id].status == Processing
  }

  /** Only the one who opened the dispute withdraws it, and not while money is on its way. */
  predicate MayWithdraw(s: State, p: Parties, user: int) {
    user in {p.customer, p.tasker} && user == p.filer && s.dispute.Active? && !AnyProcessing(s)
  }

  /** From a draft, an accepted proposal, or afresh; a refund waits for the one before it. */
  predicate MayResolve(s: State, id: int, means: Means) {
    && s.dispute.Active? && (id in s.resolutions ==> s.resolutions[id].status in {Draft, Accepted})
    && (means != WithoutRefund ==> !AnyProcessing(s))
  }

  predicate IsIssued(s: State, id: int, means: Means) {
    id in s.resolutions && s.resolutions[id].means == means && s.resolutions[id].issued
  }

  function WithStatus(s: State, id: int, status: Status): State
    requires id in s.resolutions
  {
    s.(resolutions := s.resolutions[id := s.resolutions[id].(status := status)])
  }

  /** A refund that came through resolves the dispute, whatever its status. */
  function RefundApplied(s: State, id: int): State
    requires id in s.resolutions
  {
    WithStatus(s, id, Applied).(dispute := Resolved)
  }

  /** A refund that failed makes a resolved dispute active again. */
  function RefundUndone(s: State, id: int): State
    requires id in s.resolutions
  {
    WithStatus(s, id, Failed).(dispute := if s.dispute.Resolved? then Active else s.dispute)
  }

  /** Open and due. */
  predicate IsDue(resolutions: map<int, Resolution>, id: int, now: int) {
    id in resolutions && resolutions[id].status == Proposed && resolutions[id].dueAt <= now
  }

  function Due(resolutions: map<int, Resolution>, candidates: seq<int>, now: int): set<int> {
    set id | id in candidates && IsDue(resolutions, id, now)
  }

  lemma OneMoreDue(resolutions: map<int, Resolution>, candidates: seq<int>, now: int, i: nat)
    requires i < |candidates|
    ensures |Due(resolutions, candidates[..i + 1], now)| == |Due(resolutions, candidates[..i], now)| +
            if candidates[i] !in candidates[..i] && IsDue(resolutions, candidates[i], now) then 1 else 0
  {
    var id := candidates[i];
    var before, after := Due(resolutions, candidates[..i], now), Due(resolutions, candidates[..i + 1], now);
    assert candidates[..i + 1] == candidates[..i] + [id];
    hide IsDue;
    if id !in candidates[..i] && IsDue(resolutions, id, now) {
      assert after == before + {id};
    } else {
      assert after == before;
    }
  }

  /** A step that is refused has no effect. */
  function Do(s: State, step: Step, p: Parties): State {
    match step
    case Wait(ms) => s.(now := s.now + ms)
    case SaveDraft(id) =>
      if s.dispute.Active? && id !in s.resolutions
      then s.(resolutions := s.resolutions[id := Resolution(Draft, 0, WithoutRefund, false)]) else s
    case Propose(id, dueAt) =>
      if MayPropose(s, id, dueAt)
      then s.(resolutions := Retired(s.resolutions, Superseded)
                [id := Resolution(Proposed, dueAt, WithoutRefund, false)])
      else s
    case Respond(user, id, accepts) => if MayRespond(s, p, user, id) then Responded(s, user, id, accepts) else s
    case Expire(id) => if IsDue(s.resolutions, id, s.now) then WithStatus(s, id, Expired) else s
    case Withdraw(user) =>
      if MayWithdraw(s, p, user) then s.(dispute := Withdrawn, resolutions := Retired(s.resolutions, Cancelled)) else s
    case Resolve(id, means, dismisses) =>
      if !MayResolve(s, id, means) then s
      else
        var dueAt := if id in s.resolutions then s.resolutions[id].dueAt else 0;
        if means == WithoutRefund
        then s.(dispute := if dismisses then Dismissed else Resolved,
                resolutions := s.resolutions[id := Resolution(Applied, dueAt, means, false)])
        else s.(resolutions := s.resolutions[id := Resolution(Processing, dueAt, means, false)])
    case Issue(id) =>
      if id in s.resolutions && s.resolutions[id].means in {ByCard, ByWallet} && !s.resolutions[id].issued
      then s.(resolutions := s.resolutions[id := s.resolutions[id].(status := Processing, issued := true)]) else s
    case CannotIssue(id) =>
      if IsIssued(s, id, ByCard) && s.resolutions[id].status != Applied then RefundUndone(s, id) else s
    case SettleWallet(id) =>
      if IsIssued(s, id, ByWallet) && s.resolutions[id].status != Applied then RefundApplied(s, id) else s
    case ConfirmCash(id) =>
      if s.dispute.Active? && id in s.resolutions && s.resolutions[id].means == InCash
         && s.resolutions[id].status == Processing
      then RefundApplied(s, id) else s
    case ReportRefund(id, report) =>
      // The status is overwritten before it is looked at, so it makes no difference what it was.
      if !IsIssued(s, id, ByCard) then s
      else if report.Succeeds? then RefundApplied(s, id)
      else if report.Fails? then RefundUndone(s, id)
      else WithStatus(s, id, Processing)
    case TakeUpAgain => if s.dispute in {Resolved, Dismissed} then s.(dispute := Active) else s
  }

  /** The state after further steps. */
  function After(s: State, steps: seq<Step>, p: Parties): State {
    if steps == [] then s else Do(After(s, steps[..|steps| - 1], p), steps[|steps| - 1], p)
  }

  /** The state after any schedule of steps. */
  function Run(steps: seq<Step>, p: Parties): State {
    After(INITIAL, steps, p)
  }

  // ---- What must hold ----

  predicate NoRejection(answers: seq<Answer>, id: int) {
    forall i :: 0 <= i < |answers| && answers[i].resolution == id ==> answers[i].accepts
  }

  predicate AnswersOnce(answers: seq<Answer>) {
    forall i, j :: 0 <= i < j < |answers| ==>
      answers[i].resolution != answers[j].resolution || answers[i].user != answers[j].user
  }

  predicate ByParties(answers: seq<Answer>, p: Parties) {
    forall i :: 0 <= i < |answers| ==> answers[i].user in {p.customer, p.tasker}
  }

  predicate BothAccepted(answers: seq<Answer>, id: int, p: Parties) {
    && AcceptedBy(answers, id, p.customer) && AcceptedBy(answers, id, p.tasker) && NoRejection(answers, id)
  }

  predicate Unanswered(answers: seq<Answer>, id: int) {
    forall i :: 0 <= i < |answers| ==> answers[i].resolution != id
  }

  predicate ResolutionOk(s: State, id: int, p: Parties) {
    && (id !in s.resolutions || s.resolutions[id].status == Draft ==> Unanswered(s.answers, id))
    && (id in s.resolutions && s.resolutions[id].status == Proposed ==> NoRejection(s.answers, id))
    && (id in s.resolutions && s.resolutions[id].status == Accepted ==> BothAccepted(s.answers, id, p))
  }

  predicate BothProposed(s: State, a: int, b: int)
    requires a in s.resolutions && b in s.resolutions
  {
    s.resolutions[a].status == s.resolutions[b].status == Proposed
  }

  predicate OneProposal(s: State) {
    forall a, b :: a in s.resolutions && b in s.resolutions && BothProposed(s, a, b) ==> a == b
  }

  /** A refund belongs to a resolution that has been carried out, and is under way until it is issued. */
  predicate RefundOk(r: Resolution) {
    && (r.means != WithoutRefund ==> r.status in {Processing, Failed, Applied})
    && (r.means == WithoutRefund ==> r.status !in {Processing, Failed})
    && (r.issued ==> r.means in {ByCard, ByWallet})
    && (r.means in {ByCard, ByWallet} && !r.issued ==> r.status == Processing)
    && (r.means != ByCard ==> r.status != Failed)
  }

  /** A refund that is under way after a withdrawal is one by card, reported late. */
  predicate LateOk(s: State, r: Resolution) {
    s.dispute.Withdrawn? && r.status == Processing ==> r.means == ByCard && r.issued
  }

  predicate RefundsOk(s: State) {
    forall id :: id in s.resolutions ==> RefundOk(s.resolutions[id]) && LateOk(s, s.resolutions[id])
  }

  ghost predicate Inv(s: State, p: Parties) {
    && AnswersOnce(s.answers) && ByParties(s.answers, p) && OneProposal(s) && RefundsOk(s)
    && forall id: int :: ResolutionOk(s, id, p)
  }

  lemma AnswerKeepsOthers(answers: seq<Answer>, a: Answer, id: int, p: Parties)
    requires a.resolution != id
    ensures Unanswered(answers + [a], id) <==> Unanswered(answers, id)
    ensures NoRejection(answers + [a], id) <==> NoRejection(answers, id)
    ensures BothAccepted(answers, id, p) ==> BothAccepted(answers + [a], id, p)
  {
    assert Unanswered(answers + [a], id) ==> forall i :: 0 <= i < |answers| ==> (answers + [a])[i] == answers[i];
    assert NoRejection(answers + [a], id) ==> forall i :: 0 <= i < |answers| ==> (answers + [a])[i] == answers[i];
  }

  /** The second acceptance comes from the other participant, because nobody answers twice. */
  lemma ResponseIsOk(s: State, p: Parties, user: int, id: int, accepts: bool)
    requires Inv(s, p) && MayRespond(s, p, user, id)
    ensures ResolutionOk(Responded(s, user, id, accepts), id, p)
    ensures AnswersOnce(Responded(s, user, id, accepts).answers)
            && ByParties(Responded(s, user, id, accepts).answers, p)
  {
    assert ResolutionOk(s, id, p);
    var s' := Responded(s, user, id, accepts);
    assert s'.answers[|s.answers|] == Answer(id, user, accepts);
    if accepts && AcceptedByOther(s, user, id) {
      var i :| 0 <= i < |s.answers| && s.answers[i].resolution == id && s.answers[i].accepts
               && s.answers[i].user != user;
      assert s'.answers[i] == s.answers[i] == Answer(id, s.answers[i].user, true);
      assert {user, s.answers[i].user} == {p.customer, p.tasker};
    }
  }

  lemma StepKeepsRefunds(s: State, step: Step, p: Parties)
    requires RefundsOk(s)
    ensures RefundsOk(Do(s, step, p))
  {
    var s' := Do(s, step, p);
    hide HasAnswered, AcceptedByOther;
    forall id | id in s'.resolutions ensures RefundOk(s'.resolutions[id]) && LateOk(s', s'.resolutions[id]) {
      assert id in s.resolutions ==> RefundOk(s.resolutions[id]) && LateOk(s, s.resolutions[id]);
    }
  }

  lemma StepKeepsAnswers(s: State, step: Step, p: Parties, id: int)
    requires Inv(s, p)
    ensures ResolutionOk(Do(s, step, p), id, p)
  {
    assert ResolutionOk(s, id, p);
    assert id in s.resolutions ==> RefundOk(s.resolutions[id]);
    if step.Respond? && MayRespond(s, p, step.user, step.resolution) {
      ResponseIsOk(s, p, step.user, step.resolution, step.accepts);
      if id != step.resolution {
        AnswerKeepsOthers(s.answers, Answer(step.resolution, step.user, step.accepts), id, p);
      }
    } else {
      hide Unanswered, NoRejection, BothAccepted, HasAnswered, AcceptedByOther, AnyProcessing;
    }
  }

  lemma StepKeepsOneProposal(s: State, step: Step, p: Parties)
    requires Inv(s, p)
    ensures OneProposal(Do(s, step, p))
  {
    var s' := Do(s, step, p);
    hide HasAnswered, AcceptedByOther, AnyProcessing;
    forall a, b | a in s'.resolutions && b in s'.resolutions && BothProposed(s', a, b) ensures a == b {
      if a in s.resolutions && b in s.resolutions {
        assert BothProposed(s, a, b) ==> a == b;
      }
    }
  }

  lemma StepKeepsAnswerers(s: State, step: Step, p: Parties)
    requires Inv(s, p)
    ensures AnswersOnce(Do(s, step, p).answers) && ByParties(Do(s, step, p).answers, p)
  {
    if step.Respond? && MayRespond(s, p, step.user, step.resolution) {
      ResponseIsOk(s, p, step.user, step.resolution, step.accepts);
    }
  }

  lemma StepKeepsInv(s: State, step: Step, p: Parties)
    requires Inv(s, p)
    ensures Inv(Do(s, step, p), p)
  {
    StepKeepsAnswerers(s, step, p);
    StepKeepsOneProposal(s, step, p);
    StepKeepsRefunds(s, step, p);
    hide Do, ResolutionOk;
    forall id: int ensures ResolutionOk(Do(s, step, p), id, p) {
      StepKeepsAnswers(s, step, p, id);
    }
  }

  lemma {:induction false} AfterKeepsInv(s: State, steps: seq<Step>, p: Parties)
    requires Inv(s, p)
    ensures Inv(After(s, steps, p), p)
  {
    if steps != [] {
      hide Do, Inv;
      AfterKeepsInv(s, steps[..|steps| - 1], p);
      StepKeepsInv(After(s, steps[..|steps| - 1], p), steps[|steps| - 1], p);
    }
  }

  lemma RunKeepsInv(steps: seq<Step>, p: Parties)
    ensures Inv(Run(steps, p), p)
  {
    AfterKeepsInv(INITIAL, steps, p);
  }

  // ---- Main results ----

  /**
   * In every run an accepted proposal was accepted by both participants and
   * rejected by neither, each of them answered at most once, and at most one
   * proposal is open.
   */
  lemma AcceptedMeansAcceptedByBoth(steps: seq<Step>, p: Parties, id: int)
    requires id in Run(steps, p).resolutions
    ensures var s := Run(steps, p);
            && (s.resolutions[id].status == Accepted ==> BothAccepted(s.answers, id, p))
            && AnswersOnce(s.answers) && ByParties(s.answers, p) && OneProposal(s)
  {
    RunKeepsInv(steps, p);
    assert ResolutionOk(Run(steps, p), id, p);
  }

  /** Acceptance is decided exactly by the second of two acceptances. */
  lemma AcceptedExactlyBySecond(steps: seq<Step>, p: Parties, user: int, id: int)
    requires p.customer != p.tasker && MayRespond(Run(steps, p), p, user, id)
    ensures var s := Run(steps, p); var other := if user == p.customer then p.tasker else p.customer;
            Do(s, Respond(user, id, true), p).resolutions[id].status == Accepted <==> AcceptedBy(s.answers, id, other)
  {
    RunKeepsInv(steps, p);
    hide Run;
    var s, other := Run(steps, p), if user == p.customer then p.tasker else p.customer;
    assert ResolutionOk(s, id, p);
    if AcceptedByOther(s, user, id) {
      var i :| 0 <= i < |s.answers| && s.answers[i].resolution == id && s.answers[i].accepts
               && s.answers[i].user != user;
      assert s.answers[i] == Answer(id, other, true);
    }
  }

  // ---- What stays as it is ----

  lemma ClosedStays(s: State, step: Step, p: Parties, id: int)
    requires RefundsOk(s) && id in s.resolutions
    requires s.resolutions[id].status in {Rejected, Expired, Cancelled, Superseded}
             || (s.resolutions[id].status == Applied && s.resolutions[id].means != ByCard)
    ensures id in Do(s, step, p).resolutions && Do(s, step, p).resolutions[id] == s.resolutions[id]
  {
    assert RefundOk(s.resolutions[id]);
    hide HasAnswered, AcceptedByOther, AnyProcessing;
  }

  /**
   * Rejected, expired, cancelled and superseded proposals never come back, and
   * neither does a resolution that was applied without a refund, by wallet or in
   * cash.
   */
  lemma {:induction false} ClosedProposalsStayClosed(steps: seq<Step>, more: seq<Step>, p: Parties, id: int)
    requires id in Run(steps, p).resolutions
    requires var r := Run(steps, p).resolutions[id];
             || r.status in {Rejected, Expired, Cancelled, Superseded}
             || (r.status == Applied && r.means != ByCard)
    ensures var s' := After(Run(steps, p), more, p);
            id in s'.resolutions && s'.resolutions[id] == Run(steps, p).resolutions[id]
  {
    if more != [] {
      var before, last := more[..|more| - 1], more[|more| - 1];
      ClosedProposalsStayClosed(steps, before, p, id);
      RunKeepsInv(steps, p);
      hide Do, Run;
      AfterKeepsInv(Run(steps, p), before, p);
      ClosedStays(After(Run(steps, p), before, p), last, p, id);
    }
  }

  predicate IsApplied(s: State, id: int) {
    id in s.resolutions && s.resolutions[id].status == Applied
  }

  /** Whether the latest report about a refund in these steps, if there is one, is of its success. */
  predicate LatestSucceeds(steps: seq<Step>, id: int) {
    steps == []
    || (var last := steps[|steps| - 1];
        if last.ReportRefund? && last.resolution == id then last.report.Succeeds?
        else LatestSucceeds(steps[..|steps| - 1], id))
  }

  lemma CardStep(s: State, step: Step, p: Parties, id: int)
    requires RefundsOk(s) && IsIssued(s, id, ByCard)
    ensures var s' := Do(s, step, p);
            && IsIssued(s', id, ByCard)
            && (IsApplied(s', id) <==>
                if step.ReportRefund? && step.resolution == id then step.report.Succeeds? else IsApplied(s, id))
  {
    assert RefundOk(s.resolutions[id]);
    hide HasAnswered, AcceptedByOther, AnyProcessing;
  }

  /** After any continuation an applied card refund is applied exactly if the latest report about it says so. */
  lemma {:induction false} AppliedByTheLatestReport(s: State, more: seq<Step>, p: Parties, id: int)
    requires Inv(s, p) && IsApplied(s, id) && IsIssued(s, id, ByCard)
    ensures IsIssued(After(s, more, p), id, ByCard)
    ensures IsApplied(After(s, more, p), id) <==> LatestSucceeds(more, id)
  {
    if more != [] {
      hide Do, Inv, IsApplied, IsIssued;
      var before, last := more[..|more| - 1], more[|more| - 1];
      AppliedByTheLatestReport(s, before, p, id);
      AfterKeepsInv(s, before, p);
      assert RefundsOk(After(s, before, p)) by {
        InvRefunds(After(s, before, p), p);
      }
      CardStep(After(s, before, p), last, p, id);
    }
  }

  lemma InvRefunds(s: State, p: Parties)
    requires Inv(s, p)
    ensures RefundsOk(s)
  {
  }

  /** A report that says the refund of this resolution is not through, or not through any more. */
  predicate SetsBack(step: Step, id: int) {
    step.ReportRefund? && step.resolution == id && !step.report.Succeeds?
  }

  lemma {:induction false} AllLatestSucceed(more: seq<Step>, id: int)
    ensures (forall n :: 0 <= n <= |more| ==> LatestSucceeds(more[..n], id))
        <==> (forall i :: 0 <= i < |more| ==> !SetsBack(more[i], id))
  {
    if more != [] {
      var before, last := more[..|more| - 1], more[|more| - 1];
      AllLatestSucceed(before, id);
      assert forall n :: 0 <= n <= |before| ==> before[..n] == more[..n];
      assert more[..|more|] == more && before[..|before|] == before;
      assert forall i :: 0 <= i < |before| ==> before[i] == more[i];
      assert (forall n :: 0 <= n <= |more| ==> LatestSucceeds(more[..n], id)) <==>
        (forall n :: 0 <= n <= |before| ==> LatestSucceeds(more[..n], id)) && LatestSucceeds(more, id);
    }
  }

  /**
   * An applied resolution stays applied all through any continuation if and only
   * if it refunds by other means than the card, or no report for its refund in the
   * continuation says that it is pending or failed: such a report overwrites the
   * status without looking at it.
   */
  lemma AppliedStaysIffNoSetback(steps: seq<Step>, more: seq<Step>, p: Parties, id: int)
    requires IsApplied(Run(steps, p), id)
    ensures (forall n :: 0 <= n <= |more| ==> IsApplied(After(Run(steps, p), more[..n], p), id))
        <==> || Run(steps, p).resolutions[id].means != ByCard
             || forall i :: 0 <= i < |more| ==> !SetsBack(more[i], id)
  {
    var s := Run(steps, p);
    RunKeepsInv(steps, p);
    if s.resolutions[id].means == ByCard {
      assert RefundOk(s.resolutions[id]);
      hide Run, Do, Inv;
      forall n | 0 <= n <= |more| ensures IsApplied(After(s, more[..n], p), id) <==> LatestSucceeds(more[..n], id) {
        AppliedByTheLatestReport(s, more[..n], p, id);
      }
      AllLatestSucceed(more, id);
    } else {
      forall n | 0 <= n <= |more| ensures IsApplied(After(s, more[..n], p), id) {
        ClosedProposalsStayClosed(steps, more[..n], p, id);
      }
    }
  }

  /** A late success of a refund by card that this state knows of. */
  predicate SucceedsLate(s: State, step: Step) {
    step.ReportRefund? && step.report.Succeeds? && IsIssued(s, step.resolution, ByCard)
  }

  /** While a dispute is withdrawn no further refund is issued. */
  ghost predicate SameCards(s: State, s': State) {
    forall id: int :: IsIssued(s', id, ByCard) <==> IsIssued(s, id, ByCard)
  }

  lemma WithdrawnStep(s: State, step: Step, p: Parties)
    requires RefundsOk(s) && s.dispute.Withdrawn?
    ensures Do(s, step, p).dispute.Withdrawn? <==> !SucceedsLate(s, step)
    ensures SameCards(s, Do(s, step, p))
  {
    var s' := Do(s, step, p);
    hide HasAnswered, AcceptedByOther, AnyProcessing;
    if step.Issue? || step.SettleWallet? {
      assert step.resolution in s.resolutions ==>
        RefundOk(s.resolutions[step.resolution]) && LateOk(s, s.resolutions[step.resolution]);
    }
    forall id: int ensures IsIssued(s', id, ByCard) <==> IsIssued(s, id, ByCard) {
      assert id in s.resolutions ==> RefundOk(s.resolutions[id]) && LateOk(s, s.resolutions[id]);
    }
  }

  lemma {:induction false} WithdrawnStaysFrom(s: State, more: seq<Step>, p: Parties)
    requires Inv(s, p) && s.dispute.Withdrawn?
    ensures (forall n :: 0 <= n <= |more| ==> After(s, more[..n], p).dispute.Withdrawn?)
        <==> (forall i :: 0 <= i < |more| ==> !SucceedsLate(s, more[i]))
    ensures (forall n :: 0 <= n <= |more| ==> After(s, more[..n], p).dispute.Withdrawn?) ==>
              SameCards(s, After(s, more, p))
  {
    hide Do, Inv, SucceedsLate, SameCards;
    assert more[..|more|] == more;
    if more == [] {
      SameCardsAsBefore(s);
    } else {
      var before, last := more[..|more| - 1], more[|more| - 1];
      WithdrawnStaysFrom(s, before, p);
      assert forall n :: 0 <= n <= |before| ==> before[..n] == more[..n];
      assert before[..|before|] == before;
      assert forall i :: 0 <= i < |before| ==> before[i] == more[i];
      AfterKeepsInv(s, before, p);
      InvRefunds(After(s, before, p), p);
      if forall n :: 0 <= n <= |before| ==> After(s, before[..n], p).dispute.Withdrawn? {
        WithdrawnStep(After(s, before, p), last, p);
        SameLateness(s, After(s, before, p), After(s, more, p), last);
      }
    }
  }

  /**
   * A withdrawn dispute stays withdrawn all through any continuation if and only
   * if no report in it says that a refund issued before has succeeded: that
   * resolves the dispute all the same.
   */
  lemma WithdrawnStaysIffNoLateSuccess(steps: seq<Step>, more: seq<Step>, p: Parties)
    requires Run(steps, p).dispute.Withdrawn?
    ensures (forall n :: 0 <= n <= |more| ==> After(Run(steps, p), more[..n], p).dispute.Withdrawn?)
        <==> (forall i :: 0 <= i < |more| ==> !SucceedsLate(Run(steps, p), more[i]))
  {
    RunKeepsInv(steps, p);
    hide Run, Inv;
    WithdrawnStaysFrom(Run(steps, p), more, p);
  }

  lemma SameCardsAsBefore(s: State)
    ensures SameCards(s, s)
  {
  }

  lemma SameLateness(s: State, middle: State, s': State, step: Step)
    requires SameCards(s, middle) && SameCards(middle, s')
    ensures SameCards(s, s') && (SucceedsLate(middle, step) <==> SucceedsLate(s, step))
  {
  }

  // ---- Concrete runs ----

  /** A refund by card comes through, and then the provider takes it back. */
  const TAKEN_BACK: seq<Step> :=
    [Resolve(1, ByCard, false), Issue(1), ReportRefund(1, Succeeds), ReportRefund(1, Fails)]

  lemma RunOne(steps: seq<Step>, k: nat, p: Parties)
    requires k < |steps|
    ensures Run(steps[..k + 1], p) == Do(Run(steps[..k], p), steps[k], p)
  {
    hide Do;
    assert steps[..k + 1][..k] == steps[..k];
  }

  function OneResolution(dispute: DisputeStatus, status: Status): State {
    State(0, dispute, map[1 := Resolution(status, 0, ByCard, true)], [])
  }

  lemma CardRefundIsIssued(p: Parties)
    ensures Do(Do(INITIAL, Resolve(1, ByCard, false), p), Issue(1), p) == OneResolution(Active, Processing)
  {
    assert MayResolve(INITIAL, 1, ByCard);
  }

  /** The resolution was applied and the dispute resolved; afterwards it has failed and the dispute is active. */
  lemma AppliedRefundIsTakenBack(p: Parties)
    ensures Run(TAKEN_BACK[..3], p) == OneResolution(Resolved, Applied)
    ensures Run(TAKEN_BACK, p) == OneResolution(Active, Failed)
  {
    assert Run(TAKEN_BACK[..0], p) == INITIAL;
    RunOne(TAKEN_BACK, 0, p);
    RunOne(TAKEN_BACK, 1, p);
    RunOne(TAKEN_BACK, 2, p);
    RunOne(TAKEN_BACK, 3, p);
    assert TAKEN_BACK[..4] == TAKEN_BACK;
    hide Run;
    CardRefundIsIssued(p);
  }

  /** A refund by card is reported as failed, the dispute is withdrawn, and then the refund comes through after all. */
  function WithdrawnTooEarly(user: int): seq<Step> {
    [Resolve(1, ByCard, false), Issue(1), ReportRefund(1, Fails), Withdraw(user), ReportRefund(1, Succeeds)]
  }

  lemma LateSuccessResolvesAWithdrawnDispute(p: Parties)
    requires p.filer in {p.customer, p.tasker}
    ensures Run(WithdrawnTooEarly(p.filer)[..4], p) == OneResolution(Withdrawn, Failed)
    ensures Run(WithdrawnTooEarly(p.filer), p) == OneResolution(Resolved, Applied)
  {
    var steps := WithdrawnTooEarly(p.filer);
    assert Run(steps[..0], p) == INITIAL;
    RunOne(steps, 0, p);
    RunOne(steps, 1, p);
    RunOne(steps, 2, p);
    RunOne(steps, 3, p);
    RunOne(steps, 4, p);
    assert steps[..5] == steps;
    hide Run;
    CardRefundIsIssued(p);
    assert Run(steps[..3], p) == OneResolution(Active, Failed);
    assert Retired(OneResolution(Active, Failed).resolutions, Cancelled) == OneResolution(Active, Failed).resolutions;
  }

  // ---- What each step asks for and does, row by row ----

  predicate IsOpenFor(s: State, user: int, id: int) {
    && id in s.resolutions && s.resolutions[id].status == Proposed && s.resolutions[id].dueAt >= s.now
    && forall i :: 0 <= i < |s.answers| ==> s.answers[i].user != user || s.answers[i].resolution != id
  }

  /** An answer: by a participant without one, to an open proposal in time, while the dispute is active. */
  lemma AnswerRule(s: State, p: Parties, user: int, id: int, accepts: bool)
    ensures MayRespond(s, p, user, id) <==>
            (user == p.customer || user == p.tasker) && s.dispute == Active && IsOpenFor(s, user, id)
    ensures MayRespond(s, p, user, id) ==>
              var s' := Do(s, Respond(user, id, accepts), p);
              && s' == s.(answers := s.answers + [Answer(id, user, accepts)],
                          resolutions := s.resolutions[id := s.resolutions[id].(status := s'.resolutions[id].status)])
              && (s'.resolutions[id].status == Rejected <==> !accepts)
              && (s'.resolutions[id].status == Accepted <==>
                  accepts && exists other :: other != user && Answer(id, other, true) in s.answers)
              && s'.resolutions[id].status in {Rejected, Accepted, Proposed}
    ensures !MayRespond(s, p, user, id) ==> Do(s, Respond(user, id, accepts), p) == s
  {
    assert AcceptedByOther(s, user, id) <==> exists other :: other != user && Answer(id, other, true) in s.answers by {
      if AcceptedByOther(s, user, id) {
        var i :| 0 <= i < |s.answers| && s.answers[i].resolution == id && s.answers[i].accepts
                 && s.answers[i].user != user;
        assert s.answers[i] == Answer(id, s.answers[i].user, true);
      }
    }
    hide AcceptedByOther;
  }

  /** A proposal: a new one or a draft, with a deadline ahead, while the dispute is active; the open one gives way. */
  lemma ProposalRule(s: State, p: Parties, id: int, dueAt: int, other: int)
    ensures var s' := Do(s, Propose(id, dueAt), p);
            var may := && s.dispute == Active && dueAt > s.now
                       && (id in s.resolutions ==> s.resolutions[id].status == Draft);
            && (MayPropose(s, id, dueAt) <==> may)
            && (!may ==> s' == s)
            && (may ==> s'.now == s.now && s'.dispute == s.dispute && s'.answers == s.answers
                        && s'.resolutions.Keys == s.resolutions.Keys + {id}
                        && s'.resolutions[id] == Resolution(Proposed, dueAt, WithoutRefund, false)
                        && (other in s.resolutions && other != id ==>
                              s'.resolutions[other] ==
                              if s.resolutions[other].status == Proposed
                              then s.resolutions[other].(status := Superseded) else s.resolutions[other]))
  {
  }

  /** A proposal runs out at its deadline; a draft is only written down. */
  lemma ExpiryRule(s: State, p: Parties, id: int)
    ensures Do(s, Expire(id), p) ==
            if id in s.resolutions && s.resolutions[id].status == Proposed && s.now >= s.resolutions[id].dueAt
            then s.(resolutions := s.resolutions[id := s.resolutions[id].(status := Expired)]) else s
    ensures Do(s, SaveDraft(id), p) ==
            if s.dispute == Active && id !in s.resolutions
            then s.(resolutions := s.resolutions[id := Resolution(Draft, 0, WithoutRefund, false)]) else s
  {
  }

  /** Withdrawing: by the participant who opened the dispute, while it is active and nothing is being processed. */
  lemma WithdrawalRule(s: State, p: Parties, user: int, id: int)
    requires id in s.resolutions
    ensures MayWithdraw(s, p, user) <==>
            && user == p.filer && (user == p.customer || user == p.tasker) && s.dispute == Active
            && forall other :: other in s.resolutions ==> s.resolutions[other].status != Processing
    ensures var s' := Do(s, Withdraw(user), p);
            if MayWithdraw(s, p, user)
            then s'.dispute == Withdrawn && s'.answers == s.answers && s'.resolutions.Keys == s.resolutions.Keys
                 && s'.resolutions[id] == s.resolutions[id].(status :=
                      if s.resolutions[id].status == Proposed then Cancelled else s.resolutions[id].status)
            else s' == s
  {
  }

  /**
   * Resolving: afresh, from a draft or from an accepted proposal; a
   * refund waits for any other that is being processed.
   */
  lemma ResolutionRule(s: State, p: Parties, id: int, means: Means, dismisses: bool)
    ensures var s' := Do(s, Resolve(id, means, dismisses), p);
            var may := && s.dispute == Active
                       && (id in s.resolutions ==>
                             s.resolutions[id].status == Draft || s.resolutions[id].status == Accepted)
                       && (means != WithoutRefund ==>
                             forall other :: other in s.resolutions ==> s.resolutions[other].status != Processing);
            && (!may ==> s' == s)
            && (may ==>
                  && id in s'.resolutions && s'.resolutions == s.resolutions[id := s'.resolutions[id]]
                  && s'.answers == s.answers && s'.resolutions[id].means == means && !s'.resolutions[id].issued
                  && s'.resolutions[id].status == (if means == WithoutRefund then Applied else Processing)
                  && s'.now == s.now && (id in s.resolutions ==> s'.resolutions[id].dueAt == s.resolutions[id].dueAt)
                  && s'.dispute == if means != WithoutRefund then Active else if dismisses then Dismissed else Resolved)
  {
  }

  /** A closed dispute is taken up again unless it was withdrawn, with everything else as it was; waiting only waits. */
  lemma TakingUpRule(s: State, p: Parties, ms: nat)
    ensures Do(s, TakeUpAgain, p) ==
            s.(dispute := if s.dispute == Withdrawn then Withdrawn else Active)
    ensures Do(s, Wait(ms), p) == State(s.now + ms, s.dispute, s.resolutions, s.answers)
  {
  }

  /** The transaction of a refund by card or wallet is made once; one that cannot be submitted fails. */
  lemma IssueRule(s: State, p: Parties, id: int)
    requires id in s.resolutions
    ensures var r := s.resolutions[id];
            && Do(s, Issue(id), p) ==
               (if (r.means == ByCard || r.means == ByWallet) && !r.issued
                then s.(resolutions := s.resolutions[id := r.(status := Processing, issued := true)]) else s)
            && Do(s, CannotIssue(id), p) ==
               (if r.means == ByCard && r.issued && r.status != Applied
                then s.(resolutions := s.resolutions[id := r.(status := Failed)],
                        dispute := if s.dispute == Resolved then Active else s.dispute) else s)
  {
  }

  /** Money that is there closes the dispute: by wallet at once, in cash when it is confirmed. */
  lemma SettlingRule(s: State, p: Parties, id: int)
    requires id in s.resolutions
    ensures var r := s.resolutions[id];
            && Do(s, SettleWallet(id), p) ==
               (if r.means == ByWallet && r.issued && r.status != Applied
                then s.(resolutions := s.resolutions[id := r.(status := Applied)], dispute := Resolved) else s)
            && Do(s, ConfirmCash(id), p) ==
               (if s.dispute == Active && r.means == InCash && r.status == Processing
                then s.(resolutions := s.resolutions[id := r.(status := Applied)], dispute := Resolved) else s)
  {
  }

  /**
   * A report is written down whatever the status was; success resolves
   * the dispute, failure takes it up if resolved.
   */
  lemma ReportRule(s: State, p: Parties, id: int)
    requires id in s.resolutions
    ensures var r := s.resolutions[id];
            if r.means == ByCard && r.issued
            then && Do(s, ReportRefund(id, Succeeds), p) ==
                    s.(resolutions := s.resolutions[id := r.(status := Applied)], dispute := Resolved)
                 && Do(s, ReportRefund(id, Pends), p) ==
                    s.(resolutions := s.resolutions[id := r.(status := Processing)])
                 && Do(s, ReportRefund(id, Fails), p) ==
                    s.(resolutions := s.resolutions[id := r.(status := Failed)],
                       dispute := if s.dispute == Resolved then Active else s.dispute)
            else Do(s, ReportRefund(id, Succeeds), p) == Do(s, ReportRefund(id, Pends), p)
                 == Do(s, ReportRefund(id, Fails), p) == s
  {
  }

  // ---- The transactions ----

  datatype Error = NotFound | Forbidden | Conflict | BadRequest

  class SettlementDesk {
    const parties: Parties
    var now: int
    var dispute: DisputeStatus
    var resolutions: map<int, Resolution>
    var answers: seq<Answer>
    ghost var history: seq<Step>

    ghost function Snapshot(): State
      reads this
    {
      State(now, dispute, resolutions, answers)
    }

    ghost predicate Valid()
      reads this
    {
      Snapshot() == Run(history, parties)
    }

    constructor (parties: Parties)
      ensures Valid() && history == [] && this.parties == parties
    {
      this.parties := parties;
      now, dispute, resolutions, answers, history := 0, Active, map[], [], [];
    }

    ghost method Record(step: Step)
      modifies this`history
      ensures history == old(history) + [step]
      ensures Run(history, parties) == Do(Run(old(history), parties), step, parties)
    {
      history := history + [step];
      assert history[..|history| - 1] == old(history);
    }

    method RespondToProposal(user: int, resolution: int, accepts: bool) returns (r: Result<Status, Error>)
      requires Valid()
      modifies this
      ensures Valid() && history == old(history) + [Respond(user, resolution, accepts)]
      ensures r.Success? <==> MayRespond(old(Snapshot()), parties, user, resolution)
      ensures r.Success? <==>
        && (user == parties.customer || user == parties.tasker) && old(dispute) == Active
        && IsOpenFor(old(Snapshot()), user, resolution)
      ensures r.Success? ==> answers == old(answers) + [Answer(resolution, user, accepts)]
      ensures r.Success? ==>
        (r.value == Accepted <==>
           accepts && exists other :: other != user && Answer(resolution, other, true) in old(answers))
      ensures r.Success? ==> resolution in resolutions && r.value == resolutions[resolution].status
      ensures r.Success? ==> (r.value == Rejected <==> !accepts) && r.value in {Rejected, Accepted, Proposed}
    {
      AnswerRule(Snapshot(), parties, user, resolution, accepts);
      Record(Respond(user, resolution, accepts));
      if user != parties.customer && user != parties.tasker {
        return Failure(NotFound);
      }
      if dispute != Active {
        return Failure(Conflict);
      }
      if resolution !in resolutions || resolutions[resolution].status != Proposed {
        return Failure(NotFound);
      }
      if resolutions[resolution].dueAt < now {
        return Failure(Conflict);
      }
      if exists i :: 0 <= i < |answers| && answers[i].user == user && answers[i].resolution == resolution {
        return Failure(Conflict);
      }
      answers := answers + [Answer(resolution, user, accepts)];
      assert forall i :: 0 <= i < |old(answers)| ==> answers[i] == old(answers)[i];
      assert AcceptedByAnother(user, resolution) <==> AcceptedByOther(old(Snapshot()), user, resolution);
      if !accepts {
        resolutions := resolutions[resolution := resolutions[resolution].(status := Rejected)];
      } else if AcceptedByAnother(user, resolution) {
        resolutions := resolutions[resolution := resolutions[resolution].(status := Accepted)];
      } else {
        assert resolutions == resolutions[resolution := resolutions[resolution]];
      }
      return Success(resolutions[resolution].status);
    }

    predicate AcceptedByAnother(user: int, resolution: int)
      reads this
    {
      exists i :: 0 <= i < |answers| && answers[i].resolution == resolution && answers[i].accepts
                  && answers[i].user != user
    }

    method ProposeResolution(resolution: int, dueAt: int) returns (r: Result<(), Error>)
      requires Valid()
      modifies this
      ensures Valid() && history == old(history) + [Propose(resolution, dueAt)]
      ensures r.Success? <==> MayPropose(old(Snapshot()), resolution, dueAt)
      ensures r.Success? <==>
        && old(dispute) == Active && dueAt > now
        && (resolution in old(resolutions) ==> old(resolutions)[resolution].status == Draft)
      ensures r.Success? ==> forall id :: id in old(resolutions) && id != resolution ==>
        && id in resolutions
        && resolutions[id] == if old(resolutions)[id].status == Proposed
                              then old(resolutions)[id].(status := Superseded) else old(resolutions)[id]
      ensures r.Success? ==>
        && resolution in resolutions
        && resolutions[resolution] == Resolution(Proposed, dueAt, WithoutRefund, false)
    {
      Record(Propose(resolution, dueAt));
      if dispute != Active {
        return Failure(Conflict);
      }
      if dueAt <= now {
        return Failure(BadRequest);
      }
      if resolution in resolutions && resolutions[resolution].status != Draft {
        return Failure(NotFound);
      }
      resolutions := map id | id in resolutions ::
        if resolutions[id].status == Proposed then resolutions[id].(status := Superseded) else resolutions[id];
      resolutions := resolutions[resolution := Resolution(Proposed, dueAt, WithoutRefund, false)];
      return Success(());
    }

    /** Expires every candidate that is still open and due; the number returned is that of proposals expired. */
    method ProcessExpiries(candidates: seq<int>) returns (processed: nat)
      requires Valid()
      modifies this
      ensures Valid() && old(history) <= history && now == old(now) && answers == old(answers)
      ensures resolutions.Keys == old(resolutions).Keys
      ensures forall id :: id in resolutions ==>
        resolutions[id] == if id in Due(old(resolutions), candidates, now) then old(resolutions)[id].(status := Expired)
                           else old(resolutions)[id]
      ensures processed == |Due(old(resolutions), candidates, now)|
    {
      processed := 0;
      assert Due(resolutions, candidates[..0], now) == {};
      for i := 0 to |candidates|
        invariant Valid() && old(history) <= history && now == old(now) && answers == old(answers)
        invariant resolutions.Keys == old(resolutions).Keys
        invariant processed == |Due(old(resolutions), candidates[..i], now)|
        invariant forall id :: id in resolutions ==>
          resolutions[id] == if id in Due(old(resolutions), candidates[..i], now)
                             then old(resolutions)[id].(status := Expired) else old(resolutions)[id]
      {
        var id := candidates[i];
        OneMoreDue(old(resolutions), candidates, now, i);
        assert candidates[..i + 1] == candidates[..i] + [id];
        Record(Expire(id));
        if id in resolutions && resolutions[id].status == Proposed && resolutions[id].dueAt <= now {
          resolutions := resolutions[id := resolutions[id].(status := Expired)];
          processed := processed + 1;
        }
      }
      assert candidates[..|candidates|] == candidates;
    }

    method WithdrawDispute(user: int) returns (r: Result<(), Error>)
      requires Valid()
      modifies this
      ensures Valid() && history == old(history) + [Withdraw(user)]
      ensures r.Success? <==> MayWithdraw(old(Snapshot()), parties, user)
      ensures r.Success? <==>
        && user == parties.filer && (user == parties.customer || user == parties.tasker) && old(dispute) == Active
        && forall id :: id in old(resolutions) ==> old(resolutions)[id].status != Processing
      ensures r.Success? ==> dispute == Withdrawn && forall id :: id in resolutions ==>
                               resolutions[id].status !in {Proposed, Processing}
      ensures r.Failure? ==> Snapshot() == old(Snapshot())
      ensures r == Failure(Forbidden) <==> user in {parties.customer, parties.tasker} && user != parties.filer
    {
      Record(Withdraw(user));
      if user != parties.customer && user != parties.tasker {
        return Failure(NotFound);
      }
      if user != parties.filer {
        return Failure(Forbidden);
      }
      if dispute != Active || exists id :: id in resolutions && resolutions[id].status == Processing {
        return Failure(Conflict);
      }
      dispute := Withdrawn;
      resolutions := map id | id in resolutions ::
        if resolutions[id].status == Proposed then resolutions[id].(status := Cancelled) else resolutions[id];
      return Success(());
    }

    /** Ends a refund well, unless the resolution counts as applied already. */
    method FinalizeRefundResolution(resolution: int)
      requires resolution in resolutions
      modifies this`resolutions, this`dispute
      ensures Snapshot() == if old(resolutions)[resolution].status == Applied then old(Snapshot())
                            else RefundApplied(old(Snapshot()), resolution)
    {
      if resolutions[resolution].status == Applied {
        return;
      }
      resolutions := resolutions[resolution := resolutions[resolution].(status := Applied)];
      dispute := Resolved;
    }

    /** Ends a refund badly, unless the resolution counts as applied already. */
    method FailRefundResolution(resolution: int)
      requires resolution in resolutions
      modifies this`resolutions, this`dispute
      ensures Snapshot() == if old(resolutions)[resolution].status == Applied then old(Snapshot())
                            else RefundUndone(old(Snapshot()), resolution)
    {
      if resolutions[resolution].status == Applied {
        return;
      }
      resolutions := resolutions[resolution := resolutions[resolution].(status := Failed)];
      if dispute == Resolved {
        dispute := Active;
      }
    }

    /**
     * A report of the provider. The status is written first, so neither of the
     * two methods above ever finds the resolution applied.
     */
    method HandleRefundEvent(resolution: int, report: Report)
      requires Valid()
      modifies this
      ensures Valid() && history == old(history) + [ReportRefund(resolution, report)]
      ensures old(IsIssued(Snapshot(), resolution, ByCard)) ==>
                && resolution in resolutions
                && resolutions[resolution].status == (match report
                                                      case Succeeds => Applied
                                                      case Pends => Processing
                                                      case Fails => Failed)
                && dispute == (match report
                               case Succeeds => Resolved
                               case Pends => old(dispute)
                               case Fails => if old(dispute) == Resolved then Active else old(dispute))
      ensures !old(IsIssued(Snapshot(), resolution, ByCard)) ==> Snapshot() == old(Snapshot())
    {
      Record(ReportRefund(resolution, report));
      if resolution !in resolutions || resolutions[resolution].means != ByCard || !resolutions[resolution].issued {
        return;
      }
      resolutions := resolutions[resolution :=
        resolutions[resolution].(status := if report.Fails? then Failed else Processing)];
      match report {
        case Succeeds => FinalizeRefundResolution(resolution);
        case Fails => FailRefundResolution(resolution);
        case Pends =>
      }
    }
  }
}
