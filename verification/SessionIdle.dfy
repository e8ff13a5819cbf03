/** Which steps let an attempt, or its case, come to rest: for each status of rest every other step is
    shown to be none of them. */
module SessionIdle {
  import opened Wrappers
  import opened Tags
  import opened SessionModel
  import opened SessionProtocol
  import L = Lifecycle
  import S = Status

  /** Statuses in which an attempt comes to rest, and states in which its triage does; TRIAGED is left in
      the commit that enters it. */
  predicate Resting(x: AttemptStatus, y: L.CaseState) {
    && x in {Succeeded, AttemptStatus.Failed, Blocked, AttemptStatus.TimedOut}
    && y in {L.Triaged, L.AwaitingRemediationApproval, L.HumanBlocked, L.TimedOut, L.PolicyRejected}
  }

  /** No attempt is lost or turns to status `x`, and the case does not turn to state `y`. */
  ghost predicate NoTurn(s: World, t: World, x: AttemptStatus, y: L.CaseState) {
    && |s.attempts| <= |t.attempts|
    && (forall i | 0 <= i < |t.attempts| && t.attempts[i].status == x :: i < |s.attempts| && s.attempts[i].status == x)
    && (t.state == y ==> s.state == y)
  }

  lemma IdleSame(s: World, t: World, x: AttemptStatus, y: L.CaseState)
    requires Resting(x, y)
    requires t.attempts == s.attempts && t.state == s.state
    ensures NoTurn(s, t, x, y)
  {}

  lemma IdleRow(s: World, i: nat, a: Attempt, x: AttemptStatus, y: L.CaseState)
    requires Resting(x, y)
    requires i < |s.attempts| && (a.status == x ==> s.attempts[i].status == x)
    ensures NoTurn(s, SetRow(s, i, a), x, y) && OnlyRows(s, SetRow(s, i, a))
  {}

  lemma IdleRewrite(s: World, which: set<nat>, f: Attempt -> Attempt, x: AttemptStatus, y: L.CaseState)
    requires Resting(x, y)
    requires forall a: Attempt :: f(a).status == x ==> a.status == x
    ensures var changed := s.(attempts := Rewrite(s.attempts, which, f)); NoTurn(s, changed, x, y) && OnlyRows(s, changed)
  {}

  lemma IdleThen(s: World, m: World, t: World, x: AttemptStatus, y: L.CaseState)
    requires Resting(x, y)
    requires NoTurn(s, m, x, y) && NoTurn(m, t, x, y)
    ensures NoTurn(s, t, x, y)
  {}

  lemma IdleEnd(s: World, m: World, w: nat, pc: Pc, x: AttemptStatus, y: L.CaseState)
    requires Resting(x, y)
    requires NoTurn(s, m, x, y) && w in m.processes
    ensures NoTurn(s, Goto(m, w, pc), x, y) && NoTurn(s, Stop(m, w), x, y) && NoTurn(s, Lost(m, w), x, y)
  {}

  lemma IdleMove(s: World, changed: World, w: nat, to: L.CaseState, pc: Pc, x: AttemptStatus, y: L.CaseState)
    requires Resting(x, y)
    requires NoTurn(s, changed, x, y) && w in s.processes && OnlyRows(s, changed) && to != y
    ensures NoTurn(s, MoveOn(s, changed, w, to, pc), x, y) && NoTurn(s, MoveAndStop(s, changed, w, to), x, y)
  {
    hide CanMove;
  }

  lemma IdleFail(s: World, changed: World, w: nat, x: AttemptStatus, y: L.CaseState)
    requires Resting(x, y)
    requires NoTurn(s, changed, x, y) && w in s.processes && OnlyRows(s, changed)
    ensures NoTurn(s, FailJob(s, changed, w), x, y)
  {
    hide FailJob;
  }

  /** Whatever a transaction ends with that has changed row `i`. */
  lemma IdleAny(s: World, w: nat, i: nat, a: Attempt, to: L.CaseState, pc: Pc, x: AttemptStatus, y: L.CaseState)
    requires Resting(x, y)
    requires w in s.processes && i < |s.attempts| && (a.status == x ==> s.attempts[i].status == x)
    requires to != y
    ensures
      var changed := SetRow(s, i, a);
      && OnlyRows(s, changed) && NoTurn(s, Goto(changed, w, pc), x, y) && NoTurn(s, Stop(changed, w), x, y)
      && NoTurn(s, FailJob(s, changed, w), x, y) && NoTurn(s, MoveOn(s, changed, w, to, pc), x, y)
      && NoTurn(s, MoveAndStop(s, changed, w, to), x, y) && NoTurn(s, Goto(s, w, pc), x, y) && NoTurn(s, Stop(s, w), x, y)
      && NoTurn(s, Lost(s, w), x, y) && NoTurn(s, Goto(Moved(changed, w, to), w, pc), x, y)
  {
    hide NoTurn, Goto, Stop, Lost, FailJob, MoveOn, MoveAndStop;
    var changed := SetRow(s, i, a);
    IdleRow(s, i, a, x, y);
    IdleSame(s, s, x, y);
    IdleEnd(s, changed, w, pc, x, y);
    IdleEnd(s, s, w, pc, x, y);
    IdleMove(s, changed, w, to, pc, x, y);
    IdleFail(s, changed, w, x, y);
    assert NoTurn(s, Moved(changed, w, to), x, y) by { IdleMoved(s, changed, w, to, x, y); }
    IdleEnd(s, Moved(changed, w, to), w, pc, x, y);
  }

  lemma IdleMoved(s: World, changed: World, w: nat, to: L.CaseState, x: AttemptStatus, y: L.CaseState)
    requires Resting(x, y)
    requires NoTurn(s, changed, x, y) && w in changed.processes && to != y
    ensures NoTurn(s, Moved(changed, w, to), x, y)
  {}

  /** Steps of the scheduler, the remote and the operator, and the approval flow. */
  lemma IdleAround(s: World, e: Event, x: AttemptStatus, y: L.CaseState)
    requires Resting(x, y)
    requires Actor(e).None? || e.ClaimCase? || e.OperatorReconcile?
    ensures NoTurn(s, Effect(s, e), x, y)
  {
    hide Claimable, RetainedRows, MayOwn, CapReached, L.Allowed, L.InRemediation;
  }

  lemma IdleEvaluate(s: World, w: nat, x: AttemptStatus, y: L.CaseState)
    requires Resting(x, y)
    ensures NoTurn(s, OnEvaluate(s, w), x, y)
  {
    hide NoTurn, Goto, Stop, Lost, FailJob, MoveOn, MoveAndStop, CanMove, L.Allowed;
    IdleSame(s, s, x, y);
    if OnEvaluate(s, w) != s {
      IdleMove(s, s, w, L.EligibilityEvaluated, Evaluated, x, y);
    }
  }

  lemma IdleAdmit(s: World, w: nat, eligible: bool, x: AttemptStatus, y: L.CaseState)
    requires Resting(x, y) && y != L.PolicyRejected
    ensures NoTurn(s, OnAdmit(s, w, eligible), x, y)
  {
    hide NoTurn, Goto, Stop, Lost, FailJob, MoveOn, MoveAndStop, CanMove, L.Allowed;
    IdleSame(s, s, x, y);
    if OnAdmit(s, w, eligible) != s {
      IdleMove(s, s, w, L.TriageCreateIntent, Entered(Triage), x, y);
      IdleMove(s, s, w, L.PolicyRejected, Evaluated, x, y);
    }
  }

  lemma IdleDispatch(s: World, w: nat, pick: nat, x: AttemptStatus, y: L.CaseState)
    requires Resting(x, y)
    ensures NoTurn(s, OnDispatch(s, w, pick), x, y)
  {
    hide NoTurn, Select, NewestActiveIsTriage, RetainedRows;
    IdleSame(s, OnDispatch(s, w, pick), x, y);
  }

  lemma IdleSearch(s: World, w: nat, found: SearchAnswer, x: AttemptStatus, y: L.CaseState)
    requires Resting(x, y)
    ensures NoTurn(s, OnSearch(s, w, found), x, y)
  {
    hide NoTurn, L.Allowed;
    IdleSame(s, OnSearch(s, w, found), x, y);
  }

  lemma IdleTimeoutDelete(s: World, w: nat, answer: DeleteAnswer, x: AttemptStatus, y: L.CaseState)
    requires Resting(x, y)
    ensures NoTurn(s, OnTimeoutDelete(s, w, answer), x, y)
  {
    hide NoTurn, TruthfulDelete, Delete;
    IdleSame(s, OnTimeoutDelete(s, w, answer), x, y);
  }

  lemma IdleTerminateOne(s: World, w: nat, answer: DeleteAnswer, sweep: SweepAnswer, x: AttemptStatus, y: L.CaseState)
    requires Resting(x, y)
    ensures NoTurn(s, OnTerminateOne(s, w, answer, sweep), x, y)
  {
    hide NoTurn, TruthfulDelete, TruthfulSweep, Delete;
    IdleSame(s, OnTerminateOne(s, w, answer, sweep), x, y);
  }

  lemma IdleSendPost(s: World, w: nat, posted: PostAnswer, sid: nat, x: AttemptStatus, y: L.CaseState)
    requires Resting(x, y)
    ensures NoTurn(s, OnSendPost(s, w, posted, sid), x, y)
  {
    hide NoTurn, L.Allowed;
    IdleSame(s, OnSendPost(s, w, posted, sid), x, y);
  }

  lemma IdleDeleteOrphan(s: World, w: nat, answer: DeleteAnswer, x: AttemptStatus, y: L.CaseState)
    requires Resting(x, y)
    ensures NoTurn(s, OnDeleteOrphan(s, w, answer), x, y)
  {
    hide NoTurn, TruthfulDelete, Delete;
    IdleSame(s, OnDeleteOrphan(s, w, answer), x, y);
  }

  lemma IdlePipelineMove(s: World, w: nat, to: L.CaseState, flagged: bool, x: AttemptStatus, y: L.CaseState)
    requires Resting(x, y)
    ensures NoTurn(s, OnPipelineMove(s, w, to, flagged), x, y)
  {
    hide L.Allowed, L.InRemediation;
    IdleSame(s, s, x, y);
    if OnPipelineMove(s, w, to, flagged) != s {
      L.RemediationIsClosed(s.processes[w].mem, to, flagged);
      NotInRemediation(x, y);
    }
  }

  lemma NotInRemediation(x: AttemptStatus, y: L.CaseState)
    requires Resting(x, y)
    ensures !L.InRemediation(y)
  {}

  lemma IdlePipelineFail(s: World, w: nat, x: AttemptStatus, y: L.CaseState)
    requires Resting(x, y)
    ensures NoTurn(s, OnPipelineFail(s, w), x, y)
  {
    hide NoTurn, Goto, Stop, Lost, FailJob, MoveOn, MoveAndStop, CanMove, L.Allowed, L.InRemediation;
    IdleSame(s, s, x, y);
    if OnPipelineFail(s, w) != s {
      IdleFail(s, s, w, x, y);
    }
  }

  lemma IdleEnter(s: World, w: nat, granted: bool, x: AttemptStatus, y: L.CaseState)
    requires Resting(x, y)
    ensures NoTurn(s, OnEnter(s, w, granted), x, y)
  {
    hide NoTurn, Goto, Stop, Lost, FailJob, MoveOn, MoveAndStop, CanMove, L.Allowed, NewestActive, NextOrdinal, Select;
    IdleSame(s, s, x, y);
    if OnEnter(s, w, granted) != s {
      IdleFail(s, s, w, x, y);
      var kind := s.processes[w].pc.kind;
      var found := NewestActive(s.attempts, kind, |s.attempts|);
      IdleEnd(s, s, w, Settling(kind, NextOrdinal(s.attempts, kind), Select(s.attempts, a => Unsettled(a, kind), |s.attempts|), {}), x, y);
      if found.Some? {
        var i := found.value;
        IdleEnd(s, s, w, Sweeping(i), x, y);
        IdleEnd(s, s, w, Handling(i), x, y);
        IdleEnd(s, s, w, BeginReconcile(i), x, y);
        IdleEnd(s, s, w, Polling(i), x, y);
        IdleMove(s, s, w, PhaseOf(kind).running, Polling(i), x, y);
      }
    }
  }

  lemma IdleCancelled(s: World, closed: set<nat>, w: nat, pc: Pc, x: AttemptStatus, y: L.CaseState)
    requires Resting(x, y)
    requires w in s.processes
    ensures OnlyRows(s, CancelledRows(s, closed)) && NoTurn(s, Goto(CancelledRows(s, closed), w, pc), x, y)
    ensures NoTurn(s, FailJob(s, CancelledRows(s, closed), w), x, y)
  {
    hide NoTurn, Goto, FailJob;
    IdleRewrite(s, closed, CancelledRow, x, y);
    IdleEnd(s, CancelledRows(s, closed), w, pc, x, y);
    IdleFail(s, CancelledRows(s, closed), w, x, y);
  }

  lemma IdleSettleStep(s: World, w: nat, got: GetAnswer, x: AttemptStatus, y: L.CaseState)
    requires Resting(x, y)
    ensures NoTurn(s, OnSettleStep(s, w, got), x, y)
  {
    hide NoTurn, Goto, Stop, Lost, FailJob, MoveOn, MoveAndStop, CanMove, L.Allowed, TruthfulGet, CancelledRows;
    IdleSame(s, s, x, y);
    if OnSettleStep(s, w, got) != s {
      var Settling(kind, n, todo, closed) := s.processes[w].pc;
      IdleCancelled(s, closed, w, Abandoning, x, y);
      IdleEnd(s, s, w, Settling(kind, n, todo[1..], closed + {todo[0]}), x, y);
      IdleEnd(s, s, w, Settling(kind, n, todo[1..], closed), x, y);
      IdleEnd(s, s, w, SettleDelete(kind, n, todo, closed), x, y);
    }
  }

  lemma IdleSettleDeleted(s: World, w: nat, answer: DeleteAnswer, x: AttemptStatus, y: L.CaseState)
    requires Resting(x, y)
    ensures NoTurn(s, OnSettleDeleted(s, w, answer), x, y)
  {
    hide NoTurn, Goto, Stop, Lost, FailJob, MoveOn, MoveAndStop, CanMove, L.Allowed, TruthfulDelete, CancelledRows, Delete;
    IdleSame(s, s, x, y);
    if OnSettleDeleted(s, w, answer) != s {
      var SettleDelete(kind, n, todo, closed) := s.processes[w].pc;
      IdleCancelled(s, closed, w, Abandoning, x, y);
      var m := AfterDelete(s, s.attempts[todo[0]].session.value, answer);
      IdleSame(s, m, x, y);
      IdleEnd(s, m, w, Settling(kind, n, todo[1..], closed + {todo[0]}), x, y);
    }
  }

  lemma IdleSettleCommit(s: World, w: nat, x: AttemptStatus, y: L.CaseState)
    requires Resting(x, y)
    ensures NoTurn(s, OnSettleCommit(s, w), x, y)
  {
    hide NoTurn, Goto, Stop, Lost, FailJob, MoveOn, MoveAndStop, CanMove, L.Allowed, CancelledRows;
    IdleSame(s, s, x, y);
    if OnSettleCommit(s, w) != s {
      var pc := s.processes[w].pc;
      IdleCancelled(s, pc.closed, w, Inserting(pc.kind, pc.ordinal), x, y);
    }
  }

  lemma IdleInsert(s: World, w: nat, h: string, b: string, x: AttemptStatus, y: L.CaseState)
    requires Resting(x, y)
    ensures NoTurn(s, OnInsert(s, w, h, b), x, y)
  {
    hide KeyFor, Insertable;
  }

  lemma IdleBuild(s: World, w: nat, ok: bool, x: AttemptStatus, y: L.CaseState)
    requires Resting(x, y) && x != AttemptStatus.Failed
    ensures NoTurn(s, OnBuild(s, w, ok), x, y)
  {
    hide NoTurn, Goto, Stop, Lost, FailJob, MoveOn, MoveAndStop, CanMove, L.Allowed, SetRow;
    IdleSame(s, s, x, y);
    if OnBuild(s, w, ok) != s {
      var i := s.processes[w].pc.attempt;
      var a := s.attempts[i];
      IdleAny(s, w, i, a.(sent := true), L.Failed, Posting(i), x, y);
      IdleAny(s, w, i, a.(createState := NotSent, status := AttemptStatus.Failed, finished := true), L.Failed, Abandoning, x, y);
    }
  }

  lemma IdleAttach(s: World, w: nat, x: AttemptStatus, y: L.CaseState)
    requires Resting(x, y)
    ensures NoTurn(s, OnAttach(s, w), x, y)
  {
    hide NoTurn, Goto, Stop, Lost, FailJob, MoveOn, MoveAndStop, CanMove, L.Allowed, SetRow, Moved;
    IdleSame(s, s, x, y);
    if OnAttach(s, w) != s {
      var Attaching(i, sid, created) := s.processes[w].pc;
      var a := s.attempts[i].(createState := created, session := Some(sid));
      IdleAny(s, w, i, a.(status := Running, reason := NoReason), PhaseOf(a.kind).running, Polling(i), x, y);
      IdleAny(s, w, i, SessionModel.Closed(a, Cancelled), L.Failed, Orphaned(sid), x, y);
    }
  }

  lemma IdleRecordRefusal(s: World, w: nat, x: AttemptStatus, y: L.CaseState)
    requires Resting(x, y) && x != AttemptStatus.Failed
    ensures NoTurn(s, OnRecordRefusal(s, w), x, y)
  {
    hide NoTurn, Goto, Stop, Lost, FailJob, MoveOn, MoveAndStop, CanMove, L.Allowed, SetRow;
    IdleSame(s, s, x, y);
    if OnRecordRefusal(s, w) != s {
      var i := s.processes[w].pc.attempt;
      IdleAny(s, w, i, SessionModel.Closed(s.attempts[i], AttemptStatus.Failed).(createState := ApiError), L.Failed, Abandoning, x, y);
    }
  }

  lemma IdleRecordUnknown(s: World, w: nat, x: AttemptStatus, y: L.CaseState)
    requires Resting(x, y)
    ensures NoTurn(s, OnRecordUnknown(s, w), x, y)
  {
    hide NoTurn, Goto, Stop, Lost, FailJob, MoveOn, MoveAndStop, CanMove, L.Allowed, SetRow;
    IdleSame(s, s, x, y);
    if OnRecordUnknown(s, w) != s {
      var i := s.processes[w].pc.attempt;
      var a := s.attempts[i].(createState := Uncertain, status := Reconciling, reason := OtherReason);
      IdleAny(s, w, i, a, PhaseOf(a.kind).reconciling, BeginReconcile(i), x, y);
    }
  }

  lemma IdleStartReconcile(s: World, w: nat, x: AttemptStatus, y: L.CaseState)
    requires Resting(x, y)
    ensures NoTurn(s, OnStartReconcile(s, w), x, y)
  {
    hide NoTurn, Goto, Stop, Lost, FailJob, MoveOn, MoveAndStop, CanMove, L.Allowed, SetRow;
    IdleSame(s, s, x, y);
    if OnStartReconcile(s, w) != s {
      var i := s.processes[w].pc.attempt;
      var a := s.attempts[i].(status := Reconciling);
      IdleAny(s, w, i, a, PhaseOf(a.kind).reconciling, Searching(i), x, y);
      IdleAny(s, w, i, a.(createState := Uncertain, reason := OtherReason), PhaseOf(a.kind).reconciling, Searching(i), x, y);
    }
  }

  lemma IdleBlockUnmatched(s: World, w: nat, x: AttemptStatus, y: L.CaseState)
    requires Resting(x, y) && x != Blocked && y != L.HumanBlocked
    ensures NoTurn(s, OnBlockUnmatched(s, w), x, y)
  {
    hide NoTurn, Goto, Stop, Lost, FailJob, MoveOn, MoveAndStop, CanMove, L.Allowed, SetRow;
    IdleSame(s, s, x, y);
    if OnBlockUnmatched(s, w) != s {
      var i := s.processes[w].pc.attempt;
      var a := SessionModel.Closed(s.attempts[i], Blocked).(createState := Unresolved, reason := OtherReason);
      IdleAny(s, w, i, a, PhaseOf(a.kind).humanBlocked, Abandoning, x, y);
    }
  }

  lemma IdlePollCheck(s: World, w: nat, expired: bool, x: AttemptStatus, y: L.CaseState)
    requires Resting(x, y)
    ensures NoTurn(s, OnPollCheck(s, w, expired), x, y)
  {}

  lemma IdlePollAnswer(s: World, w: nat, got: GetAnswer, x: AttemptStatus, y: L.CaseState)
    requires Resting(x, y)
    ensures NoTurn(s, OnPollAnswer(s, w, got), x, y)
  {
    hide NoTurn, Goto, SetRow, TruthfulGet;
    IdleSame(s, s, x, y);
    if OnPollAnswer(s, w, got) != s {
      var i := s.processes[w].pc.attempt;
      var a := s.attempts[i];
      if got.GetNotFound? {
        IdleEnd(s, s, w, SessionLost(i), x, y);
      } else if got.GetError? || got.disposition == S.Unknown {
        IdleAny(s, w, i, a.(status := Reconciling, reason := OtherReason), L.Failed, Polling(i), x, y);
      } else {
        var pc := if got.disposition == S.Live then Polling(i) else Settled(i, got.disposition, got.output);
        IdleAny(s, w, i, a.(status := Running, reason := NoReason), L.Failed, pc, x, y);
      }
    }
  }

  lemma IdleRecordLost(s: World, w: nat, x: AttemptStatus, y: L.CaseState)
    requires Resting(x, y) && x != AttemptStatus.Failed
    ensures NoTurn(s, OnRecordLost(s, w), x, y)
  {
    hide NoTurn, Goto, Stop, Lost, FailJob, MoveOn, MoveAndStop, CanMove, L.Allowed, SetRow;
    IdleSame(s, s, x, y);
    if OnRecordLost(s, w) != s {
      var i := s.processes[w].pc.attempt;
      IdleAny(s, w, i, SessionModel.Closed(s.attempts[i], AttemptStatus.Failed), L.Failed, Abandoning, x, y);
    }
  }

  lemma IdleSettleOutcome(s: World, w: nat, x: AttemptStatus, y: L.CaseState)
    requires Resting(x, y) && x != Blocked && x != AttemptStatus.Failed && y != L.HumanBlocked
    ensures NoTurn(s, OnSettleOutcome(s, w), x, y)
  {
    hide NoTurn, Goto, FailJob, MoveAndStop, SetRow, PhaseOf;
    IdleSame(s, s, x, y);
    if OnSettleOutcome(s, w) != s {
      var i, d := s.processes[w].pc.attempt, s.processes[w].pc.disposition;
      var a := s.attempts[i];
      if d == S.Finished {
        IdleAny(s, w, i, a.(output := s.processes[w].pc.output, finished := true), L.Failed, Finishing(i), x, y);
      } else if d == S.WaitingForHuman {
        IdleAny(s, w, i, SessionModel.Closed(a, Blocked), PhaseOf(a.kind).humanBlocked, Abandoning, x, y) by { OtherPhase(a.kind, y); }
      } else {
        IdleAny(s, w, i, SessionModel.Closed(a, AttemptStatus.Failed), L.Failed, Abandoning, x, y);
      }
    }
  }

  lemma OtherPhase(kind: Kind, y: L.CaseState)
    requires Resting(Succeeded, y) && y != L.HumanBlocked
    ensures PhaseOf(kind).humanBlocked != y
  {}

  lemma IdleTimeoutGet(s: World, w: nat, got: GetAnswer, x: AttemptStatus, y: L.CaseState)
    requires Resting(x, y)
    ensures NoTurn(s, OnTimeoutGet(s, w, got), x, y)
  {
    hide NoTurn, Goto, SetRow, TruthfulGet, PhaseOf;
    IdleSame(s, s, x, y);
    if OnTimeoutGet(s, w, got) != s {
      var i := s.processes[w].pc.attempt;
      IdleEnd(s, s, w, Deleting(i), x, y);
      IdleEnd(s, s, w, Closing(i), x, y);
      if got.Snapshot? {
        IdleAny(s, w, i, s.attempts[i].(status := Running), L.Failed, Settled(i, got.disposition, got.output), x, y);
      }
    }
  }

  lemma IdlePark(s: World, w: nat, x: AttemptStatus, y: L.CaseState)
    requires Resting(x, y)
    ensures NoTurn(s, OnPark(s, w), x, y)
  {
    hide NoTurn, Goto, Stop, Lost, FailJob, MoveOn, MoveAndStop, CanMove, L.Allowed, SetRow;
    IdleSame(s, s, x, y);
    if OnPark(s, w) != s {
      var i := s.processes[w].pc.attempt;
      var a := s.attempts[i];
      IdleAny(s, w, i, a.(status := TerminationPending), PhaseOf(a.kind).terminationPending, Abandoning, x, y);
      IdleAny(s, w, i, a.(status := TerminationPending, reason := OtherReason), PhaseOf(a.kind).terminationPending, Abandoning, x, y);
    }
  }

  lemma IdleSweepTag(s: World, w: nat, sweep: SweepAnswer, x: AttemptStatus, y: L.CaseState)
    requires Resting(x, y)
    ensures NoTurn(s, OnSweepTag(s, w, sweep), x, y)
  {
    hide TruthfulSweep, Delete;
  }

  lemma IdleCloseOut(s: World, w: nat, expired: bool, x: AttemptStatus, y: L.CaseState)
    requires Resting(x, y) && x != AttemptStatus.Failed && x != AttemptStatus.TimedOut && y != L.TimedOut
    ensures NoTurn(s, OnCloseOut(s, w, expired), x, y)
  {
    hide NoTurn, MoveAndStop, SetRow, L.Allowed;
    IdleSame(s, s, x, y);
    if OnCloseOut(s, w, expired) != s {
      var i := s.processes[w].pc.attempt;
      var a := s.attempts[i];
      var phase := PhaseOf(a.kind);
      if a.reason.CancelRequested? && !expired {
        IdleAny(s, w, i, SessionModel.Closed(a, Cancelled).(reason := NoReason), phase.cancelled, Abandoning, x, y);
      } else if a.reason.WorkerError? && !expired {
        IdleAny(s, w, i, SessionModel.Closed(a, AttemptStatus.Failed).(reason := NoReason), phase.failed, Abandoning, x, y);
      } else {
        IdleAny(s, w, i, SessionModel.Closed(a, TimedOut).(reason := NoReason), phase.timedOut, Abandoning, x, y);
      }
    }
  }

  lemma IdleTerminateCommit(s: World, w: nat, x: AttemptStatus, y: L.CaseState)
    requires Resting(x, y)
    ensures NoTurn(s, OnTerminateCommit(s, w), x, y)
  {
    hide NoTurn, Goto, Stop, Lost, FailJob, MoveOn, MoveAndStop, CanMove, L.Allowed;
    IdleSame(s, s, x, y);
    if OnTerminateCommit(s, w) != s {
      var Terminating(_, closed, parked) := s.processes[w].pc;
      var kept := s.(attempts := Rewrite(s.attempts, parked, CancelParked));
      var ended := kept.(attempts := Rewrite(kept.attempts, closed, TerminationConfirmed));
      IdleRewrite(s, parked, CancelParked, x, y);
      IdleRewrite(kept, closed, TerminationConfirmed, x, y);
      IdleThen(s, kept, ended, x, y);
      IdleEnd(s, ended, w, Abandoning, x, y);
      IdleMove(s, ended, w, L.PhaseForState(s.processes[w].mem).cancelled, Abandoning, x, y);
    }
  }

  lemma IdleReread(s: World, w: nat, got: GetAnswer, x: AttemptStatus, y: L.CaseState)
    requires Resting(x, y)
    ensures NoTurn(s, OnReread(s, w, got), x, y)
  {
    hide NoTurn, Goto, SetRow, TruthfulGet;
    IdleSame(s, s, x, y);
    if OnReread(s, w, got) != s {
      var Rereading(candidates, todo, found) := s.processes[w].pc;
      var a := s.attempts[todo[0]];
      var next := Rereading(candidates, todo[1..], found);
      match got
      case GetError => IdleAny(s, w, todo[0], a.(reason := OtherReason), L.Failed, next, x, y);
      case GetNotFound => IdleAny(s, w, todo[0], a.(reason := NoOutput(true)), L.Failed, next, x, y);
      case Snapshot(_, _, output, valid) =>
        if output { IdleEnd(s, s, w, Rereading(candidates, todo[1..], found + [(todo[0], valid)]), x, y); }
        else { IdleAny(s, w, todo[0], a.(reason := NoOutput(false)), L.Failed, next, x, y); }
    }
  }

  lemma IdleIngest(s: World, w: nat, x: AttemptStatus, y: L.CaseState)
    requires Resting(x, y)
    ensures NoTurn(s, OnIngest(s, w), x, y)
  {
    hide NoTurn, Goto, Stop, MoveOn, SetRow, Rewrite, Chosen;
    IdleSame(s, s, x, y);
    if OnIngest(s, w) != s {
      var pc := s.processes[w].pc;
      IdleEnd(s, s, w, Abandoning, x, y);
      if pc.found != [] {
        var i := Chosen(pc.found);
        var others := set j <- pc.candidates | j != i;
        IdleKept(s, others, w, i, x, y);
      }
    }
  }

  lemma IdleKept(s: World, others: set<nat>, w: nat, i: nat, x: AttemptStatus, y: L.CaseState)
    requires Resting(x, y) && w in s.processes && i < |s.attempts|
    ensures
      var superseded := s.(attempts := Rewrite(s.attempts, others, Superseded));
      var ingested := SetRow(superseded, i, s.attempts[i].(status := Running, reason := NoReason));
      && OnlyRows(s, ingested) && NoTurn(s, Goto(ingested, w, Settled(i, S.Finished, true)), x, y)
      && NoTurn(s, MoveOn(s, ingested, w, L.Triaging, Settled(i, S.Finished, true)), x, y)
  {
    hide NoTurn, Goto, MoveOn;
    var superseded := s.(attempts := Rewrite(s.attempts, others, Superseded));
    var a := s.attempts[i].(status := Running, reason := NoReason);
    IdleRewrite(s, others, Superseded, x, y);
    IdleRow(superseded, i, a, x, y);
    IdleThen(s, superseded, SetRow(superseded, i, a), x, y);
    IdleEnd(s, SetRow(superseded, i, a), w, Settled(i, S.Finished, true), x, y);
    IdleMove(s, SetRow(superseded, i, a), w, L.Triaging, Settled(i, S.Finished, true), x, y);
  }

  lemma IdleAbandon(s: World, w: nat, x: AttemptStatus, y: L.CaseState)
    requires Resting(x, y)
    ensures NoTurn(s, OnAbandon(s, w), x, y)
  {
    hide NoTurn, Goto, Stop, Lost, FailJob, MoveOn, MoveAndStop, CanMove, L.Allowed;
    IdleSame(s, s, x, y);
    if OnAbandon(s, w) != s {
      var unsent := set i | 0 <= i < |s.attempts| && Active(s.attempts[i]) && !s.attempts[i].sent;
      IdleRewrite(s, unsent, CancelledRow, x, y);
      IdleEnd(s, s.(attempts := Rewrite(s.attempts, unsent, CancelledRow)), w, Abandoning, x, y);
    }
  }

  lemma IdleFinish(s: World, w: nat, valid: bool, x: AttemptStatus, y: L.CaseState)
    requires Resting(x, y) && x != Succeeded && x != AttemptStatus.Failed && y != L.AwaitingRemediationApproval
    ensures NoTurn(s, OnFinish(s, w, valid), x, y)
  {
    hide NoTurn, Goto, Stop, Lost, FailJob, MoveOn, MoveAndStop, CanMove, L.Allowed, SetRow, Moved;
    IdleSame(s, s, x, y);
    if OnFinish(s, w, valid) != s {
      var i := s.processes[w].pc.attempt;
      var a := s.attempts[i];
      IdleAny(s, w, i, a.(status := Succeeded), L.OutputValidating, Abandoning, x, y);
      IdleAny(s, w, i, a.(status := AttemptStatus.Failed, output := false), L.OutputValidating, Abandoning, x, y);
      if a.kind == Triage { IdleApproval(s, w, i, a.(status := Succeeded), x, y); }
    }
  }

  lemma IdleApproval(s: World, w: nat, i: nat, a: Attempt, x: AttemptStatus, y: L.CaseState)
    requires Resting(x, y) && x != Succeeded && y != L.AwaitingRemediationApproval
    requires w in s.processes && i < |s.attempts| && a.status == Succeeded
    ensures NoTurn(s, Stop(Moved(Moved(SetRow(s, i, a), w, L.Triaged), w, L.AwaitingRemediationApproval), w), x, y)
  {}

  /** The events that can turn an attempt to `x` or the case to `y`. */
  predicate Turns(e: Event, x: AttemptStatus, y: L.CaseState) {
    || (e.Finish? && (x == Succeeded || x == AttemptStatus.Failed || y == L.AwaitingRemediationApproval))
    || (e.Admit? && y == L.PolicyRejected)
    || (e.BlockUnmatched? && (x == Blocked || y == L.HumanBlocked))
    || (e.SettleOutcome? && (x == Blocked || x == AttemptStatus.Failed || y == L.HumanBlocked))
    || (e.CloseOut? && (x == AttemptStatus.Failed || x == AttemptStatus.TimedOut || y == L.TimedOut))
    || ((e.Build? || e.RecordRefusal? || e.RecordLost?) && x == AttemptStatus.Failed)
  }

  predicate Entries(e: Event) {
    e.Evaluate? || e.Admit? || e.Dispatch? || e.PipelineMove? || e.PipelineFail? || e.Enter?
  }

  lemma EntriesIdle(s: World, w: nat, x: AttemptStatus, y: L.CaseState)
    requires Resting(x, y)
    ensures NoTurn(s, OnEvaluate(s, w), x, y)
    ensures (y != L.PolicyRejected) ==> forall eligible :: NoTurn(s, OnAdmit(s, w, eligible), x, y)
    ensures forall pick: nat :: NoTurn(s, OnDispatch(s, w, pick), x, y)
    ensures forall to, flagged :: NoTurn(s, OnPipelineMove(s, w, to, flagged), x, y)
    ensures NoTurn(s, OnPipelineFail(s, w), x, y)
    ensures forall granted :: NoTurn(s, OnEnter(s, w, granted), x, y)
  {
    hide NoTurn, OnEvaluate, OnAdmit, OnDispatch, OnPipelineMove, OnPipelineFail, OnEnter;
    IdleEvaluate(s, w, x, y);
    if y != L.PolicyRejected {
      forall eligible ensures NoTurn(s, OnAdmit(s, w, eligible), x, y) { IdleAdmit(s, w, eligible, x, y); }
    }
    forall pick: nat ensures NoTurn(s, OnDispatch(s, w, pick), x, y) { IdleDispatch(s, w, pick, x, y); }
    forall to, flagged ensures NoTurn(s, OnPipelineMove(s, w, to, flagged), x, y) { IdlePipelineMove(s, w, to, flagged, x, y); }
    IdlePipelineFail(s, w, x, y);
    forall granted ensures NoTurn(s, OnEnter(s, w, granted), x, y) { IdleEnter(s, w, granted, x, y); }
  }

  lemma EntryIdles(s: World, e: Event, x: AttemptStatus, y: L.CaseState)
    requires Resting(x, y) && !Turns(e, x, y) && Entries(e)
    ensures NoTurn(s, Effect(s, e), x, y)
  {
    hide NoTurn, OnEvaluate, OnAdmit, OnDispatch, OnPipelineMove, OnPipelineFail, OnEnter;
    EntriesIdle(s, Actor(e).value, x, y);
  }

  predicate Makings(e: Event) {
    e.SettleStep? || e.SettleDeleted? || e.SettleCommit? || e.Insert? || e.Build? || e.SendPost?
  }

  lemma MakingsIdle(s: World, w: nat, x: AttemptStatus, y: L.CaseState)
    requires Resting(x, y)
    ensures forall got :: NoTurn(s, OnSettleStep(s, w, got), x, y)
    ensures forall answer :: NoTurn(s, OnSettleDeleted(s, w, answer), x, y)
    ensures NoTurn(s, OnSettleCommit(s, w), x, y)
    ensures forall h, b :: NoTurn(s, OnInsert(s, w, h, b), x, y)
    ensures (x != AttemptStatus.Failed) ==> forall ok :: NoTurn(s, OnBuild(s, w, ok), x, y)
    ensures forall posted, sid: nat :: NoTurn(s, OnSendPost(s, w, posted, sid), x, y)
  {
    hide NoTurn, OnSettleStep, OnSettleDeleted, OnSettleCommit, OnInsert, OnBuild, OnSendPost;
    forall got ensures NoTurn(s, OnSettleStep(s, w, got), x, y) { IdleSettleStep(s, w, got, x, y); }
    forall answer ensures NoTurn(s, OnSettleDeleted(s, w, answer), x, y) { IdleSettleDeleted(s, w, answer, x, y); }
    IdleSettleCommit(s, w, x, y);
    forall h, b ensures NoTurn(s, OnInsert(s, w, h, b), x, y) { IdleInsert(s, w, h, b, x, y); }
    if x != AttemptStatus.Failed {
      forall ok ensures NoTurn(s, OnBuild(s, w, ok), x, y) { IdleBuild(s, w, ok, x, y); }
    }
    forall posted, sid: nat ensures NoTurn(s, OnSendPost(s, w, posted, sid), x, y) { IdleSendPost(s, w, posted, sid, x, y); }
  }

  lemma MakingIdles(s: World, e: Event, x: AttemptStatus, y: L.CaseState)
    requires Resting(x, y) && !Turns(e, x, y) && Makings(e)
    ensures NoTurn(s, Effect(s, e), x, y)
  {
    hide NoTurn, OnSettleStep, OnSettleDeleted, OnSettleCommit, OnInsert, OnBuild, OnSendPost;
    MakingsIdle(s, Actor(e).value, x, y);
  }

  predicate Bindings(e: Event) {
    e.Attach? || e.DeleteOrphan? || e.RecordRefusal? || e.RecordUnknown? || e.StartReconcile? || e.Search?
  }

  lemma BindingsIdle(s: World, w: nat, x: AttemptStatus, y: L.CaseState)
    requires Resting(x, y)
    ensures NoTurn(s, OnAttach(s, w), x, y)
    ensures forall answer :: NoTurn(s, OnDeleteOrphan(s, w, answer), x, y)
    ensures x != AttemptStatus.Failed ==> NoTurn(s, OnRecordRefusal(s, w), x, y)
    ensures NoTurn(s, OnRecordUnknown(s, w), x, y)
    ensures NoTurn(s, OnStartReconcile(s, w), x, y)
    ensures forall found :: NoTurn(s, OnSearch(s, w, found), x, y)
  {
    hide NoTurn, OnAttach, OnDeleteOrphan, OnRecordRefusal, OnRecordUnknown, OnStartReconcile, OnSearch;
    IdleAttach(s, w, x, y);
    forall answer ensures NoTurn(s, OnDeleteOrphan(s, w, answer), x, y) { IdleDeleteOrphan(s, w, answer, x, y); }
    if x != AttemptStatus.Failed { IdleRecordRefusal(s, w, x, y); }
    IdleRecordUnknown(s, w, x, y);
    IdleStartReconcile(s, w, x, y);
    forall found ensures NoTurn(s, OnSearch(s, w, found), x, y) { IdleSearch(s, w, found, x, y); }
  }

  lemma BindingIdles(s: World, e: Event, x: AttemptStatus, y: L.CaseState)
    requires Resting(x, y) && !Turns(e, x, y) && Bindings(e)
    ensures NoTurn(s, Effect(s, e), x, y)
  {
    hide NoTurn, OnAttach, OnDeleteOrphan, OnRecordRefusal, OnRecordUnknown, OnStartReconcile, OnSearch;
    BindingsIdle(s, Actor(e).value, x, y);
  }

  predicate Pollings(e: Event) {
    e.BlockUnmatched? || e.PollCheck? || e.PollAnswer? || e.RecordLost? || e.SettleOutcome? || e.Finish?
  }

  lemma PollingsIdle(s: World, w: nat, x: AttemptStatus, y: L.CaseState)
    requires Resting(x, y)
    ensures x != Blocked && y != L.HumanBlocked ==> NoTurn(s, OnBlockUnmatched(s, w), x, y)
    ensures forall expired :: NoTurn(s, OnPollCheck(s, w, expired), x, y)
    ensures forall got :: NoTurn(s, OnPollAnswer(s, w, got), x, y)
    ensures x != AttemptStatus.Failed ==> NoTurn(s, OnRecordLost(s, w), x, y)
    ensures x != Blocked && x != AttemptStatus.Failed && y != L.HumanBlocked ==> NoTurn(s, OnSettleOutcome(s, w), x, y)
    ensures (x != Succeeded && x != AttemptStatus.Failed && y != L.AwaitingRemediationApproval) ==> forall valid :: NoTurn(s, OnFinish(s, w, valid), x, y)
  {
    hide NoTurn, OnBlockUnmatched, OnPollCheck, OnPollAnswer, OnRecordLost, OnSettleOutcome, OnFinish;
    if x != Blocked && y != L.HumanBlocked { IdleBlockUnmatched(s, w, x, y); }
    forall expired ensures NoTurn(s, OnPollCheck(s, w, expired), x, y) { IdlePollCheck(s, w, expired, x, y); }
    forall got ensures NoTurn(s, OnPollAnswer(s, w, got), x, y) { IdlePollAnswer(s, w, got, x, y); }
    if x != AttemptStatus.Failed { IdleRecordLost(s, w, x, y); }
    if x != Blocked && x != AttemptStatus.Failed && y != L.HumanBlocked { IdleSettleOutcome(s, w, x, y); }
    if x != Succeeded && x != AttemptStatus.Failed && y != L.AwaitingRemediationApproval {
      forall valid ensures NoTurn(s, OnFinish(s, w, valid), x, y) { IdleFinish(s, w, valid, x, y); }
    }
  }

  lemma PollingIdles(s: World, e: Event, x: AttemptStatus, y: L.CaseState)
    requires Resting(x, y) && !Turns(e, x, y) && Pollings(e)
    ensures NoTurn(s, Effect(s, e), x, y)
  {
    hide NoTurn, OnBlockUnmatched, OnPollCheck, OnPollAnswer, OnRecordLost, OnSettleOutcome, OnFinish;
    PollingsIdle(s, Actor(e).value, x, y);
  }

  predicate Stoppings(e: Event) {
    e.TimeoutGet? || e.TimeoutDelete? || e.Park? || e.SweepTag? || e.CloseOut? || e.TerminateOne?
  }

  lemma StoppingsIdle(s: World, w: nat, x: AttemptStatus, y: L.CaseState)
    requires Resting(x, y)
    ensures forall got :: NoTurn(s, OnTimeoutGet(s, w, got), x, y)
    ensures forall answer :: NoTurn(s, OnTimeoutDelete(s, w, answer), x, y)
    ensures NoTurn(s, OnPark(s, w), x, y)
    ensures forall sweep :: NoTurn(s, OnSweepTag(s, w, sweep), x, y)
    ensures (x != AttemptStatus.Failed && x != AttemptStatus.TimedOut && y != L.TimedOut) ==> forall expired :: NoTurn(s, OnCloseOut(s, w, expired), x, y)
    ensures forall answer, sweep :: NoTurn(s, OnTerminateOne(s, w, answer, sweep), x, y)
  {
    hide NoTurn, OnTimeoutGet, OnTimeoutDelete, OnPark, OnSweepTag, OnCloseOut, OnTerminateOne;
    forall got ensures NoTurn(s, OnTimeoutGet(s, w, got), x, y) { IdleTimeoutGet(s, w, got, x, y); }
    forall answer ensures NoTurn(s, OnTimeoutDelete(s, w, answer), x, y) { IdleTimeoutDelete(s, w, answer, x, y); }
    IdlePark(s, w, x, y);
    forall sweep ensures NoTurn(s, OnSweepTag(s, w, sweep), x, y) { IdleSweepTag(s, w, sweep, x, y); }
    if x != AttemptStatus.Failed && x != AttemptStatus.TimedOut && y != L.TimedOut {
      forall expired ensures NoTurn(s, OnCloseOut(s, w, expired), x, y) { IdleCloseOut(s, w, expired, x, y); }
    }
    forall answer, sweep ensures NoTurn(s, OnTerminateOne(s, w, answer, sweep), x, y) { IdleTerminateOne(s, w, answer, sweep, x, y); }
  }

  lemma StoppingIdles(s: World, e: Event, x: AttemptStatus, y: L.CaseState)
    requires Resting(x, y) && !Turns(e, x, y) && Stoppings(e)
    ensures NoTurn(s, Effect(s, e), x, y)
  {
    hide NoTurn, OnTimeoutGet, OnTimeoutDelete, OnPark, OnSweepTag, OnCloseOut, OnTerminateOne;
    StoppingsIdle(s, Actor(e).value, x, y);
  }

  predicate Closings(e: Event) {
    e.TerminateCommit? || e.Reread? || e.Ingest? || e.Abandon?
  }

  lemma ClosingsIdle(s: World, w: nat, x: AttemptStatus, y: L.CaseState)
    requires Resting(x, y)
    ensures NoTurn(s, OnTerminateCommit(s, w), x, y)
    ensures forall got :: NoTurn(s, OnReread(s, w, got), x, y)
    ensures NoTurn(s, OnIngest(s, w), x, y)
    ensures NoTurn(s, OnAbandon(s, w), x, y)
  {
    hide NoTurn, OnTerminateCommit, OnReread, OnIngest, OnAbandon;
    IdleTerminateCommit(s, w, x, y);
    forall got ensures NoTurn(s, OnReread(s, w, got), x, y) { IdleReread(s, w, got, x, y); }
    IdleIngest(s, w, x, y);
    IdleAbandon(s, w, x, y);
  }

  lemma ClosingIdles(s: World, e: Event, x: AttemptStatus, y: L.CaseState)
    requires Resting(x, y) && !Turns(e, x, y) && Closings(e)
    ensures NoTurn(s, Effect(s, e), x, y)
  {
    hide NoTurn, OnTerminateCommit, OnReread, OnIngest, OnAbandon;
    ClosingsIdle(s, Actor(e).value, x, y);
  }

  lemma EffectIdles(s: World, e: Event, x: AttemptStatus, y: L.CaseState)
    requires Resting(x, y) && !Turns(e, x, y)
    ensures NoTurn(s, Effect(s, e), x, y)
  {
    hide NoTurn, Effect, Turns;
    if Entries(e) { EntryIdles(s, e, x, y); }
    else if Makings(e) { MakingIdles(s, e, x, y); }
    else if Bindings(e) { BindingIdles(s, e, x, y); }
    else if Pollings(e) { PollingIdles(s, e, x, y); }
    else if Stoppings(e) { StoppingIdles(s, e, x, y); }
    else if Closings(e) { ClosingIdles(s, e, x, y); }
    else { IdleAround(s, e, x, y); }
  }

  lemma NextIdles(s: World, e: Event, x: AttemptStatus, y: L.CaseState)
    requires Resting(x, y) && !Turns(e, x, y)
    ensures NoTurn(s, Next(s, e), x, y)
  {
    hide Effect, Waits, NoTurn;
    IdleSame(s, s, x, y);
    EffectIdles(s, e, x, y);
  }
}
