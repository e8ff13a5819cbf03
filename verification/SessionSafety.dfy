/** What every run keeps, with any number of workers, stale claims and crashes: one POST per
    operation key, made by the run that inserted the row, and a bounded, numbered set of attempts. */
module SessionSafety {
  import opened Wrappers
  import opened Tags
  import opened SessionModel
  import opened SessionProtocol
  import L = Lifecycle

  // ------------------------------------------------------------------ the invariant

  /** Rows are numbered within the cap, and no two share a key or, within a kind, an ordinal. */
  ghost predicate RowsOk(s: World) {
    && |s.inserters| == |s.attempts|
    && (forall i | 0 <= i < |s.attempts| :: 1 <= s.attempts[i].ordinal <= s.config.maxAttempts)
    && (forall i, j | 0 <= i < j < |s.attempts| ::
          && s.attempts[i].key != s.attempts[j].key
          && (s.attempts[i].kind == s.attempts[j].kind ==> s.attempts[i].ordinal != s.attempts[j].ordinal))
  }

  ghost predicate PostOk(s: World, p: Post) {
    && p.attempt < |s.attempts| && |s.inserters| == |s.attempts|
    && p.key == s.attempts[p.attempt].key
    && p.run == s.inserters[p.attempt]
    && s.attempts[p.attempt].sent
  }

  /** Every POST was made for its own row, by the run that inserted it, and no row has two. */
  ghost predicate PostsOk(s: World) {
    && (forall k | 0 <= k < |s.posts| :: PostOk(s, s.posts[k]))
    && (forall j, k | 0 <= j < k < |s.posts| :: s.posts[j].attempt != s.posts[k].attempt)
  }

  predicate IsCreator(pc: Pc) { pc.Building? || pc.Posting? }

  /** A process about to POST: its row is its own, and nothing was posted for it yet. */
  ghost predicate CreatorOk(s: World, p: Process) {
    IsCreator(p.pc) ==>
      && p.pc.attempt < |s.attempts| && |s.inserters| == |s.attempts|
      && s.inserters[p.pc.attempt] == p.run
      && s.attempts[p.pc.attempt].sent == p.pc.Posting?
      && (forall k | 0 <= k < |s.posts| :: s.posts[k].attempt != p.pc.attempt)
  }

  ghost predicate CreatorsOk(s: World) {
    && (forall w <- s.processes :: CreatorOk(s, s.processes[w]))
    && (forall v, w | v in s.processes && w in s.processes && v != w &&
          IsCreator(s.processes[v].pc) && IsCreator(s.processes[w].pc) ::
          s.processes[v].pc.attempt != s.processes[w].pc.attempt)
  }

  function Planned(pc: Pc): Option<nat> {
    match pc
    case Settling(_, n, _, _) => Some(n)
    case SettleDelete(_, n, _, _) => Some(n)
    case Inserting(_, n) => Some(n)
    case _ => None
  }

  predicate PlanOk(s: World, pc: Pc) {
    Planned(pc).Some? ==> 1 <= Planned(pc).value <= s.config.maxAttempts
  }

  ghost predicate PlansOk(s: World) { forall w <- s.processes :: PlanOk(s, s.processes[w].pc) }

  ghost predicate Inv(s: World) { RowsOk(s) && PostsOk(s) && CreatorsOk(s) && PlansOk(s) }

  // ------------------------------------------------------------------ steps that create nothing

  predicate SameIdentity(a: Attempt, b: Attempt) {
    a.kind == b.kind && a.ordinal == b.ordinal && a.key == b.key && a.sent == b.sent
  }

  /** The rows keep their identity and nothing is posted. */
  ghost predicate SameRows(s: World, t: World) {
    && t.config == s.config && t.inserters == s.inserters && t.posts == s.posts
    && |t.attempts| == |s.attempts|
    && (forall i | 0 <= i < |s.attempts| :: SameIdentity(s.attempts[i], t.attempts[i]))
  }

  /** `w`'s successor is no new creator and no new plan outside the cap. */
  ghost predicate QuietProcess(s: World, t: World, w: nat)
    requires w in t.processes
  {
    && (IsCreator(t.processes[w].pc) ==>
          w in s.processes && s.processes[w].pc == t.processes[w].pc && s.processes[w].run == t.processes[w].run)
    && (PlanOk(s, t.processes[w].pc) ||
        (w in s.processes && Planned(s.processes[w].pc) == Planned(t.processes[w].pc)))
  }

  ghost predicate QuietStep(s: World, t: World) {
    SameRows(s, t) && forall w <- t.processes :: QuietProcess(s, t, w)
  }

  /** The case state moves along the table: not at all, by one edge, or by the two edges that
      the end of triage commits together. */
  predicate Follows(s: World, t: World) {
    || t.state == s.state
    || L.Allowed(s.state, t.state, false)
    || L.Allowed(s.state, t.state, true)
    || (L.Allowed(s.state, L.Triaged, false) && t.state == L.AwaitingRemediationApproval)
  }

  predicate HasActiveTriage(s: World) { exists a <- s.attempts :: ActiveOf(a, Triage) }

  ghost predicate NoneGetsBlocked(s: World, t: World) {
    |t.attempts| == |s.attempts| &&
    forall i | 0 <= i < |s.attempts| && t.attempts[i].kind == Triage && t.attempts[i].status == Blocked ::
      s.attempts[i].status == Blocked
  }

  /** A triage attempt becomes blocked only together with its case; and a case gets to TRIAGING
      with an active attempt, or from HUMAN_BLOCKED. */
  ghost predicate Tidy(s: World, t: World) {
    && (NoneGetsBlocked(s, t) || t.state == L.HumanBlocked)
    && (t.state == L.Triaging ==> s.state == L.Triaging || s.state == L.HumanBlocked || HasActiveTriage(t))
  }

  /** What every step but the three creating ones is. */
  ghost predicate Harmless(s: World, t: World) { QuietStep(s, t) && Follows(s, t) && Tidy(s, t) }

  lemma QuietKeeps(s: World, t: World)
    requires Inv(s) && QuietStep(s, t)
    ensures Inv(t)
  {
    forall i, j | 0 <= i < j < |t.attempts|
      ensures t.attempts[i].key != t.attempts[j].key
      ensures t.attempts[i].kind == t.attempts[j].kind ==> t.attempts[i].ordinal != t.attempts[j].ordinal
    {
      assert SameIdentity(s.attempts[i], t.attempts[i]) && SameIdentity(s.attempts[j], t.attempts[j]);
    }
    forall k | 0 <= k < |t.posts|
      ensures PostOk(t, t.posts[k])
    {
      assert PostOk(s, s.posts[k]);
    }
    forall w <- t.processes
      ensures CreatorOk(t, t.processes[w]) && PlanOk(t, t.processes[w].pc)
    {
      assert QuietProcess(s, t, w);
      if IsCreator(t.processes[w].pc) { assert CreatorOk(s, s.processes[w]); }
      if w in s.processes { assert PlanOk(s, s.processes[w].pc); }
    }
    forall v, w | v in t.processes && w in t.processes && v != w &&
                  IsCreator(t.processes[v].pc) && IsCreator(t.processes[w].pc)
      ensures t.processes[v].pc.attempt != t.processes[w].pc.attempt
    {
      assert QuietProcess(s, t, v) && QuietProcess(s, t, w);
    }
  }

  // One lemma per step: none of them posts, inserts a row, or marks one as sent.

  lemma QuietClaimCase(s: World, w: nat)
    ensures Harmless(s, OnClaim(s, w))
  {
    hide L.Allowed, FailJob;
  }

  lemma QuietOperatorReconcile(s: World, w: nat)
    ensures Harmless(s, OnOperatorReconcile(s, w))
  {
    hide L.Allowed, FailJob;
  }

  lemma QuietCrash(s: World, w: nat)
    ensures Harmless(s, s.(processes := s.processes - {w}))
  {}

  lemma QuietRemoteStops(s: World, sid: nat)
    ensures Harmless(s, OnRemoteStops(s, sid))
  {
    hide L.Allowed, FailJob;
  }

  lemma QuietRemoteVanishes(s: World, sid: nat)
    ensures Harmless(s, s.(sessions := Delete(s.sessions, {sid})))
  {}

  lemma QuietOperatorCancel(s: World)
    ensures Harmless(s, OnOperatorCancel(s))
  {
    hide L.Allowed, FailJob;
  }

  lemma QuietOperatorRetry(s: World, confirm: bool)
    ensures Harmless(s, OnOperatorRetry(s, confirm))
  {
    hide L.Allowed, FailJob;
  }

  lemma QuietApprovalMove(s: World, to: L.CaseState)
    ensures Harmless(s, OnApprovalMove(s, to))
  {
    hide L.Allowed, FailJob;
  }

  lemma QuietEvaluate(s: World, w: nat)
    ensures Harmless(s, OnEvaluate(s, w))
  {
    hide L.Allowed, FailJob;
  }

  lemma QuietAdmit(s: World, w: nat, eligible: bool)
    ensures Harmless(s, OnAdmit(s, w, eligible))
  {
    hide L.Allowed, FailJob;
  }

  lemma QuietPipelineMove(s: World, w: nat, to: L.CaseState, flagged: bool)
    ensures Harmless(s, OnPipelineMove(s, w, to, flagged))
  {
    hide L.Allowed, FailJob;
    if OnPipelineMove(s, w, to, flagged) != s { L.RemediationIsClosed(s.processes[w].mem, to, flagged); }
  }

  lemma QuietPipelineFail(s: World, w: nat)
    ensures Harmless(s, OnPipelineFail(s, w))
  {
    hide L.Allowed, FailJob;
  }

  lemma QuietFail(s: World, changed: World, w: nat)
    requires w in s.processes && OnlyRows(s, changed) && SameRows(s, changed) && NoneGetsBlocked(s, changed)
    ensures Harmless(s, FailJob(s, changed, w))
  {
    hide L.Allowed, FailJob;
  }

  lemma QuietGoto(s: World, w: nat, pc: Pc)
    requires w in s.processes && !IsCreator(pc) && (PlanOk(s, pc) || Planned(pc) == Planned(s.processes[w].pc))
    ensures Harmless(s, Goto(s, w, pc)) && Harmless(s, Stop(s, w)) && Harmless(s, s)
  {}

  lemma QuietMoveOn(s: World, w: nat, to: L.CaseState, pc: Pc)
    requires w in s.processes && !IsCreator(pc) && Planned(pc).None?
    requires to == L.Triaging ==> HasActiveTriage(s)
    ensures Harmless(s, MoveOn(s, s, w, to, pc))
  {
    hide L.Allowed;
    if CanMove(s, w, to) {
      hide CanMove;
      assert MoveOn(s, s, w, to, pc).attempts == s.attempts;
      assert QuietStep(s, MoveOn(s, s, w, to, pc));
    } else {
      hide Harmless;
      QuietGoto(s, w, Abandoning);
    }
  }

  lemma QuietTermination(s: World, w: nat, pick: nat, remediation: bool)
    requires w in s.processes
    ensures Harmless(s, TerminationEntry(s, w, pick, remediation))
  {
    hide Harmless, Goto;
    QuietIdle(s);
    QuietGoto(s, w, Entered(Remediation));
    QuietGoto(s, w, Terminating(Select(s.attempts, Owning, |s.attempts|), {}, {}));
    if pick < |s.attempts| { QuietGoto(s, w, Entered(s.attempts[pick].kind)); }
  }

  lemma QuietDispatch(s: World, w: nat, pick: nat)
    ensures Harmless(s, OnDispatch(s, w, pick))
  {
    hide Harmless, Goto, Stop, NewestActiveIsTriage, RetainedRows, TerminationEntry;
    QuietIdle(s);
    if w in s.processes {
      QuietGoto(s, w, Entered(Triage));
      QuietGoto(s, w, Entered(Remediation));
      QuietGoto(s, w, Rereading(RetainedRows(s.attempts), RetainedRows(s.attempts), []));
      QuietTermination(s, w, pick, false);
      QuietTermination(s, w, pick, true);
    }
  }

  lemma QuietEnter(s: World, w: nat, granted: bool)
    ensures Harmless(s, OnEnter(s, w, granted))
  {
    hide Harmless, FailJob, MoveOn, Goto, Stop, NewestActive, NextOrdinal;
    if w in s.processes && s.processes[w].pc.Entered? {
      var kind := s.processes[w].pc.kind;
      QuietFail(s, s, w);
      match NewestActive(s.attempts, kind, |s.attempts|)
      case None =>
        var n := NextOrdinal(s.attempts, kind);
        if n <= s.config.maxAttempts {
          QuietGoto(s, w, Settling(kind, n, Select(s.attempts, a => Unsettled(a, kind), |s.attempts|), {}));
        }
        QuietGoto(s, w, Abandoning);
      case Some(i) =>
        QuietGoto(s, w, Sweeping(i));
        QuietGoto(s, w, Handling(i));
        QuietGoto(s, w, BeginReconcile(i));
        QuietGoto(s, w, Polling(i));
        assert s.attempts[i] in s.attempts;
        QuietMoveOn(s, w, PhaseOf(kind).running, Polling(i));
    } else {
      QuietIdle(s);
    }
  }

  lemma QuietIdle(s: World)
    ensures Harmless(s, s)
  {}

  lemma QuietSettleStep(s: World, w: nat, got: GetAnswer)
    ensures Harmless(s, OnSettleStep(s, w, got))
  {
    hide Harmless, TruthfulGet, FailJob, Goto;
    QuietIdle(s);
    if w in s.processes && s.processes[w].pc.Settling? && s.processes[w].pc.todo != [] {
      var Settling(kind, ordinal, todo, closed) := s.processes[w].pc;
      QuietFail(s, CancelledRows(s, closed), w);
      QuietGoto(s, w, Settling(kind, ordinal, todo[1..], closed + {todo[0]}));
      QuietGoto(s, w, Settling(kind, ordinal, todo[1..], closed));
      QuietGoto(s, w, SettleDelete(kind, ordinal, todo, closed));
    }
  }

  lemma QuietSettleDeleted(s: World, w: nat, answer: DeleteAnswer)
    ensures Harmless(s, OnSettleDeleted(s, w, answer))
  {
    hide L.Allowed, FailJob;
  }

  lemma QuietSettleCommit(s: World, w: nat)
    ensures Harmless(s, OnSettleCommit(s, w))
  {
    hide L.Allowed, FailJob;
  }

  lemma QuietAttach(s: World, w: nat)
    ensures Harmless(s, OnAttach(s, w))
  {
    hide L.Allowed, L.PhaseForState;
    var t := OnAttach(s, w);
    if t != s {
      var i := s.processes[w].pc.attempt;
      assert t.attempts[i] in t.attempts;
    }
  }

  lemma QuietDeleteOrphan(s: World, w: nat, answer: DeleteAnswer)
    ensures Harmless(s, OnDeleteOrphan(s, w, answer))
  {
    hide L.Allowed, FailJob;
  }

  lemma QuietRecordRefusal(s: World, w: nat)
    ensures Harmless(s, OnRecordRefusal(s, w))
  {
    hide L.Allowed, FailJob;
  }

  lemma QuietRecordUnknown(s: World, w: nat)
    ensures Harmless(s, OnRecordUnknown(s, w))
  {
    hide L.Allowed, FailJob;
  }

  lemma QuietStartReconcile(s: World, w: nat)
    ensures Harmless(s, OnStartReconcile(s, w))
  {
    hide L.Allowed, FailJob;
  }

  lemma QuietSearch(s: World, w: nat, found: SearchAnswer)
    ensures Harmless(s, OnSearch(s, w, found))
  {
    hide L.Allowed, FailJob;
  }

  lemma QuietBlockUnmatched(s: World, w: nat)
    ensures Harmless(s, OnBlockUnmatched(s, w))
  {
    hide L.Allowed, FailJob;
  }

  lemma QuietPollCheck(s: World, w: nat, expired: bool)
    ensures Harmless(s, OnPollCheck(s, w, expired))
  {
    hide L.Allowed, FailJob;
  }

  lemma QuietPollAnswer(s: World, w: nat, got: GetAnswer)
    ensures Harmless(s, OnPollAnswer(s, w, got))
  {
    hide L.Allowed, FailJob;
  }

  lemma QuietRecordLost(s: World, w: nat)
    ensures Harmless(s, OnRecordLost(s, w))
  {
    hide L.Allowed, FailJob;
  }

  lemma QuietRow(s: World, i: nat, b: Attempt, w: nat, pc: Pc)
    requires i < |s.attempts| && SameIdentity(s.attempts[i], b) && (b.status == Blocked ==> s.attempts[i].status == Blocked)
    requires w in s.processes && !IsCreator(pc) && Planned(pc).None?
    ensures Harmless(s, Goto(SetRow(s, i, b), w, pc))
  {}

  lemma QuietSettleOutcome(s: World, w: nat)
    ensures Harmless(s, OnSettleOutcome(s, w))
  {
    hide Harmless, FailJob, MoveAndStop, Goto, SetRow;
    QuietIdle(s);
    if w in s.processes && s.processes[w].pc.Settled? && s.processes[w].pc.attempt < |s.attempts| {
      var i := s.processes[w].pc.attempt;
      var a := s.attempts[i];
      QuietRow(s, i, a.(output := s.processes[w].pc.output, finished := true), w, Finishing(i));
      QuietEnd(s, i, Closed(a, Blocked), w, PhaseOf(a.kind).humanBlocked);
      QuietEnd(s, i, Closed(a, Failed), w, PhaseOf(a.kind).failed);
    }
  }

  /** The row is closed together with a move of the case, or with its failure. */
  lemma QuietEnd(s: World, i: nat, b: Attempt, w: nat, to: L.CaseState)
    requires i < |s.attempts| && SameIdentity(s.attempts[i], b) && w in s.processes && to != L.Triaging
    requires b.status == Blocked && b.kind == Triage ==> to == L.HumanBlocked
    ensures Harmless(s, MoveAndStop(s, SetRow(s, i, b), w, to))
    ensures b.status != Blocked ==> Harmless(s, FailJob(s, SetRow(s, i, b), w))
  {
    hide Harmless, FailJob, MoveAndStop;
    QuietMove(s, SetRow(s, i, b), w, to);
    if b.status != Blocked { QuietFail(s, SetRow(s, i, b), w); }
  }

  lemma QuietTriaged(s: World, changed: World, w: nat)
    requires w in s.processes && OnlyRows(s, changed) && SameRows(s, changed) && NoneGetsBlocked(s, changed)
    requires CanMove(changed, w, L.Triaged)
    ensures Harmless(s, Stop(Moved(Moved(changed, w, L.Triaged), w, L.AwaitingRemediationApproval), w))
  {
    hide L.Allowed;
  }

  lemma QuietFinish(s: World, w: nat, valid: bool)
    ensures Harmless(s, OnFinish(s, w, valid))
  {
    hide L.Allowed, FailJob, MoveAndStop, Harmless, CanMove, Moved;
    QuietIdle(s);
    if w in s.processes && s.processes[w].pc.Finishing? && s.processes[w].pc.attempt < |s.attempts| {
      var i := s.processes[w].pc.attempt;
      var succeeded := SetRow(s, i, s.attempts[i].(status := Succeeded));
      QuietMove(s, succeeded, w, L.OutputValidating);
      QuietFail(s, SetRow(s, i, s.attempts[i].(status := Failed, output := false)), w);
      if CanMove(succeeded, w, L.Triaged) { QuietTriaged(s, succeeded, w); }
      QuietGoto(s, w, Abandoning);
    }
  }

  lemma QuietTimeoutGet(s: World, w: nat, got: GetAnswer)
    ensures Harmless(s, OnTimeoutGet(s, w, got))
  {
    hide L.Allowed, FailJob;
  }

  lemma QuietTimeoutDelete(s: World, w: nat, answer: DeleteAnswer)
    ensures Harmless(s, OnTimeoutDelete(s, w, answer))
  {
    hide L.Allowed, FailJob;
  }

  lemma QuietPark(s: World, w: nat)
    ensures Harmless(s, OnPark(s, w))
  {
    hide L.Allowed, FailJob;
  }

  lemma QuietSweepTag(s: World, w: nat, sweep: SweepAnswer)
    ensures Harmless(s, OnSweepTag(s, w, sweep))
  {
    hide L.Allowed, FailJob;
  }

  lemma QuietCloseOut(s: World, w: nat, expired: bool)
    ensures Harmless(s, OnCloseOut(s, w, expired))
  {
    hide L.Allowed, FailJob;
  }

  lemma QuietTerminateOne(s: World, w: nat, answer: DeleteAnswer, sweep: SweepAnswer)
    ensures Harmless(s, OnTerminateOne(s, w, answer, sweep))
  {
    hide L.Allowed, FailJob;
  }

  lemma QuietTerminateCommit(s: World, w: nat)
    ensures Harmless(s, OnTerminateCommit(s, w))
  {
    hide L.Allowed, FailJob;
  }

  lemma QuietReread(s: World, w: nat, got: GetAnswer)
    ensures Harmless(s, OnReread(s, w, got))
  {
    hide L.Allowed, FailJob;
  }

  lemma QuietIngest(s: World, w: nat)
    ensures Harmless(s, OnIngest(s, w))
  {
    hide L.Allowed, FailJob, Chosen;
  }

  lemma QuietAbandon(s: World, w: nat)
    ensures Harmless(s, OnAbandon(s, w))
  {
    hide L.Allowed, FailJob;
  }

  lemma QuietMove(s: World, changed: World, w: nat, to: L.CaseState)
    requires w in s.processes && OnlyRows(s, changed) && SameRows(s, changed) && to != L.Triaging
    requires NoneGetsBlocked(s, changed) || to == L.HumanBlocked
    ensures Harmless(s, MoveAndStop(s, changed, w, to))
  {
    hide L.Allowed;
  }

  lemma QuietBuildRefused(s: World, w: nat)
    ensures Harmless(s, OnBuild(s, w, false))
  {
    hide L.Allowed, FailJob;
  }

  predicate CreatesNothing(e: Event) {
    !e.Insert? && !e.SendPost? && !(e.Build? && e.ok)
  }

  /** The events up to the outcome of the POST; the others come later in the life of an attempt. */
  predicate Early(e: Event) {
    e.ClaimCase? || e.OperatorReconcile? || e.Crash? || e.RemoteStops? || e.RemoteVanishes? ||
    e.OperatorCancel? || e.OperatorRetry? || e.ApprovalMove? || e.Evaluate? || e.Admit? ||
    e.Dispatch? || e.PipelineMove? || e.PipelineFail? || e.Enter? || e.SettleStep? ||
    e.SettleDeleted? || e.SettleCommit? || e.Attach? || e.DeleteOrphan? || e.RecordRefusal? ||
    e.RecordUnknown? || e.StartReconcile?
  }

  lemma EarlyIsQuiet(s: World, e: Event)
    requires CreatesNothing(e) && Early(e)
    ensures Harmless(s, Effect(s, e))
  {
    hide Harmless;
    hide OnClaim, OnOperatorReconcile, OnRemoteStops, OnOperatorCancel, OnOperatorRetry,
      OnApprovalMove, OnEvaluate, OnAdmit, OnDispatch, OnPipelineMove, OnPipelineFail, OnEnter,
      OnSettleStep, OnSettleDeleted, OnSettleCommit, OnInsert, OnBuild, OnSendPost, OnAttach,
      OnDeleteOrphan, OnRecordRefusal, OnRecordUnknown, OnStartReconcile, OnSearch,
      OnBlockUnmatched, OnPollCheck, OnPollAnswer, OnRecordLost, OnSettleOutcome, OnFinish,
      OnTimeoutGet, OnTimeoutDelete, OnPark, OnSweepTag, OnCloseOut, OnTerminateOne,
      OnTerminateCommit, OnReread, OnIngest, OnAbandon;
    match e
    case ClaimCase(w) => QuietClaimCase(s, w);
    case OperatorReconcile(w) => QuietOperatorReconcile(s, w);
    case Crash(w) => QuietCrash(s, w);
    case RemoteStops(sid) => QuietRemoteStops(s, sid);
    case RemoteVanishes(sid) => QuietRemoteVanishes(s, sid);
    case OperatorCancel => QuietOperatorCancel(s);
    case OperatorRetry(confirm) => QuietOperatorRetry(s, confirm);
    case ApprovalMove(to) => QuietApprovalMove(s, to);
    case Evaluate(w) => QuietEvaluate(s, w);
    case Admit(w, eligible) => QuietAdmit(s, w, eligible);
    case Dispatch(w, pick) => QuietDispatch(s, w, pick);
    case PipelineMove(w, to, flagged) => QuietPipelineMove(s, w, to, flagged);
    case PipelineFail(w) => QuietPipelineFail(s, w);
    case Enter(w, granted) => QuietEnter(s, w, granted);
    case SettleStep(w, got) => QuietSettleStep(s, w, got);
    case SettleDeleted(w, answer) => QuietSettleDeleted(s, w, answer);
    case SettleCommit(w) => QuietSettleCommit(s, w);
    case Attach(w) => QuietAttach(s, w);
    case DeleteOrphan(w, answer) => QuietDeleteOrphan(s, w, answer);
    case RecordRefusal(w) => QuietRecordRefusal(s, w);
    case RecordUnknown(w) => QuietRecordUnknown(s, w);
    case StartReconcile(w) => QuietStartReconcile(s, w);
  }

  lemma LateIsQuiet(s: World, e: Event)
    requires CreatesNothing(e) && !Early(e)
    ensures Harmless(s, Effect(s, e))
  {
    hide Harmless;
    hide OnClaim, OnOperatorReconcile, OnRemoteStops, OnOperatorCancel, OnOperatorRetry,
      OnApprovalMove, OnEvaluate, OnAdmit, OnDispatch, OnPipelineMove, OnPipelineFail, OnEnter,
      OnSettleStep, OnSettleDeleted, OnSettleCommit, OnInsert, OnBuild, OnSendPost, OnAttach,
      OnDeleteOrphan, OnRecordRefusal, OnRecordUnknown, OnStartReconcile, OnSearch,
      OnBlockUnmatched, OnPollCheck, OnPollAnswer, OnRecordLost, OnSettleOutcome, OnFinish,
      OnTimeoutGet, OnTimeoutDelete, OnPark, OnSweepTag, OnCloseOut, OnTerminateOne,
      OnTerminateCommit, OnReread, OnIngest, OnAbandon;
    match e
    case Search(w, found) => QuietSearch(s, w, found);
    case BlockUnmatched(w) => QuietBlockUnmatched(s, w);
    case PollCheck(w, expired) => QuietPollCheck(s, w, expired);
    case PollAnswer(w, got) => QuietPollAnswer(s, w, got);
    case RecordLost(w) => QuietRecordLost(s, w);
    case SettleOutcome(w) => QuietSettleOutcome(s, w);
    case Finish(w, valid) => QuietFinish(s, w, valid);
    case TimeoutGet(w, got) => QuietTimeoutGet(s, w, got);
    case TimeoutDelete(w, answer) => QuietTimeoutDelete(s, w, answer);
    case Park(w) => QuietPark(s, w);
    case SweepTag(w, sweep) => QuietSweepTag(s, w, sweep);
    case CloseOut(w, expired) => QuietCloseOut(s, w, expired);
    case TerminateOne(w, answer, sweep) => QuietTerminateOne(s, w, answer, sweep);
    case TerminateCommit(w) => QuietTerminateCommit(s, w);
    case Reread(w, got) => QuietReread(s, w, got);
    case Ingest(w) => QuietIngest(s, w);
    case Abandon(w) => QuietAbandon(s, w);
    case Build(w, ok) => QuietBuildRefused(s, w);
  }

  lemma EffectIsQuiet(s: World, e: Event)
    requires CreatesNothing(e)
    ensures Harmless(s, Effect(s, e))
  {
    hide Effect, Harmless, Early, CreatesNothing;
    if Early(e) { EarlyIsQuiet(s, e); } else { LateIsQuiet(s, e); }
  }

  lemma NextIsQuiet(s: World, e: Event)
    requires CreatesNothing(e)
    ensures Harmless(s, Next(s, e))
  {
    hide Effect, Harmless, CreatesNothing, Waits;
    QuietIdle(s);
    EffectIsQuiet(s, e);
  }

  // ------------------------------------------------------------------ the three creating steps

  /** A row is appended by process `w`, which is its creator. */
  ghost predicate Appends(s: World, t: World, w: nat) {
    && w in s.processes && t.config == s.config && t.posts == s.posts && |s.inserters| == |s.attempts|
    && |t.attempts| == |s.attempts| + 1 && s.attempts <= t.attempts && !t.attempts[|s.attempts|].sent
    && t.inserters == s.inserters + [s.processes[w].run]
    && t.processes == s.processes[w := s.processes[w].(pc := Building(|s.attempts|))]
  }

  lemma AppendKeeps(s: World, t: World, w: nat)
    requires Inv(s) && Appends(s, t, w)
    ensures PostsOk(t) && CreatorsOk(t) && PlansOk(t)
  {
    hide RowsOk;
    forall k | 0 <= k < |t.posts| ensures PostOk(t, t.posts[k]) {
      assert PostOk(s, s.posts[k]);
    }
    forall v <- t.processes ensures CreatorOk(t, t.processes[v]) && PlanOk(t, t.processes[v].pc) {
      if v != w { assert CreatorOk(s, s.processes[v]) && PlanOk(s, s.processes[v].pc); }
    }
  }

  lemma InsertKeeps(s: World, w: nat, resultHash: string, baseSha: string)
    requires Inv(s)
    ensures Inv(OnInsert(s, w, resultHash, baseSha))
  {
    hide KeyFor, PostsOk, CreatorsOk;
    var t := OnInsert(s, w, resultHash, baseSha);
    if |t.attempts| == |s.attempts| {
      QuietKeeps(s, t);
    } else {
      assert PlanOk(s, s.processes[w].pc);
      AppendKeeps(s, t, w);
    }
  }

  lemma BuildKeeps(s: World, w: nat)
    requires Inv(s)
    ensures Inv(OnBuild(s, w, true))
  {
    var t := OnBuild(s, w, true);
    if t != s {
      var i := s.processes[w].pc.attempt;
      assert CreatorOk(s, s.processes[w]);
      forall k | 0 <= k < |t.posts| ensures PostOk(t, t.posts[k]) {
        assert PostOk(s, s.posts[k]);
      }
      forall v <- t.processes ensures CreatorOk(t, t.processes[v]) && PlanOk(t, t.processes[v].pc) {
        assert CreatorOk(s, s.processes[v]) && PlanOk(s, s.processes[v].pc);
      }
    }
  }

  /** A POST by the creator of row `i`, whatever the answer was. */
  ghost predicate Posts(s: World, t: World, w: nat) {
    && w in s.processes && w in t.processes && s.processes[w].pc.Posting?
    && t == s.(posts := t.posts, processes := t.processes, sessions := t.sessions)
    && s.processes[w].pc.attempt < |s.attempts|
    && t.posts == s.posts + [Post(s.processes[w].pc.attempt, s.attempts[s.processes[w].pc.attempt].key, s.processes[w].run)]
    && t.processes == s.processes[w := t.processes[w]]
    && !IsCreator(t.processes[w].pc) && Planned(t.processes[w].pc).None?
  }

  lemma PostsKeep(s: World, t: World, w: nat)
    requires Inv(s) && Posts(s, t, w)
    ensures Inv(t)
  {
    assert CreatorOk(s, s.processes[w]);
    forall k | 0 <= k < |t.posts| ensures PostOk(t, t.posts[k]) {
      if k < |s.posts| { assert PostOk(s, s.posts[k]); }
    }
    forall v <- t.processes ensures CreatorOk(t, t.processes[v]) && PlanOk(t, t.processes[v].pc) {
      if v != w { assert CreatorOk(s, s.processes[v]) && PlanOk(s, s.processes[v].pc); }
    }
  }

  lemma SendPostKeeps(s: World, w: nat, posted: PostAnswer, sid: nat)
    requires Inv(s)
    ensures Inv(OnSendPost(s, w, posted, sid))
  {
    var t := OnSendPost(s, w, posted, sid);
    if t != s {
      assert Posts(s, t, w);
      PostsKeep(s, t, w);
    }
  }

  lemma NextKeeps(s: World, e: Event)
    requires Inv(s)
    ensures Inv(Next(s, e))
  {
    hide Waits, OnClaim, OnOperatorReconcile, OnRemoteStops, OnOperatorCancel, OnOperatorRetry,
      OnApprovalMove, OnEvaluate, OnAdmit, OnDispatch, OnPipelineMove, OnPipelineFail, OnEnter,
      OnSettleStep, OnSettleDeleted, OnSettleCommit, OnInsert, OnBuild, OnSendPost, OnAttach,
      OnDeleteOrphan, OnRecordRefusal, OnRecordUnknown, OnStartReconcile, OnSearch,
      OnBlockUnmatched, OnPollCheck, OnPollAnswer, OnRecordLost, OnSettleOutcome, OnFinish,
      OnTimeoutGet, OnTimeoutDelete, OnPark, OnSweepTag, OnCloseOut, OnTerminateOne,
      OnTerminateCommit, OnReread, OnIngest, OnAbandon;
    if CreatesNothing(e) {
      NextIsQuiet(s, e);
      QuietKeeps(s, Next(s, e));
    } else {
      match e
      case Insert(w, h, b) => InsertKeeps(s, w, h, b);
      case Build(w, ok) => BuildKeeps(s, w);
      case SendPost(w, posted, sid) => SendPostKeeps(s, w, posted, sid);
    }
  }

  // ------------------------------------------------------------------ over every run

  lemma {:induction false} RunKeeps(config: Config, es: seq<Event>)
    ensures Inv(Run(Initial(config), es))
    ensures Run(Initial(config), es).config == config
  {
    if es != [] {
      RunKeeps(config, es[..|es| - 1]);
      NextKeeps(Run(Initial(config), es[..|es| - 1]), es[|es| - 1]);
      ConfigIsFixed(Run(Initial(config), es[..|es| - 1]), es[|es| - 1]);
    }
  }

  lemma ConfigIsFixed(s: World, e: Event)
    ensures Next(s, e).config == s.config
  {
    if CreatesNothing(e) { NextIsQuiet(s, e); }
  }

  /** Over every run of any number of workers, with a crash allowed between any two commits, no
      operation key is POSTed twice, and a POST is made only by the run that inserted its row. */
  lemma AtMostOnePostPerKey(config: Config, es: seq<Event>)
    ensures
      var s := Run(Initial(config), es);
      && (forall j, k | 0 <= j < k < |s.posts| :: s.posts[j].key != s.posts[k].key)
      && (forall k | 0 <= k < |s.posts| ::
            s.posts[k].attempt < |s.inserters| && s.posts[k].run == s.inserters[s.posts[k].attempt])
  {
    RunKeeps(config, es);
    var s := Run(Initial(config), es);
    forall j, k | 0 <= j < k < |s.posts|
      ensures s.posts[j].key != s.posts[k].key
    {
      assert PostOk(s, s.posts[j]) && PostOk(s, s.posts[k]);
      var a, b := s.posts[j].attempt, s.posts[k].attempt;
      if a < b { assert s.attempts[a].key != s.attempts[b].key; } else { assert s.attempts[b].key != s.attempts[a].key; }
    }
    forall k | 0 <= k < |s.posts|
      ensures s.posts[k].attempt < |s.inserters| && s.posts[k].run == s.inserters[s.posts[k].attempt]
    {
      assert PostOk(s, s.posts[k]);
    }
  }

  /** The ordinals of the posted attempts of `kind`. */
  function PostedOrdinals(s: World, posts: seq<Post>, kind: Kind): set<nat>
    requires forall p <- posts :: p.attempt < |s.attempts|
  {
    set p <- posts | s.attempts[p.attempt].kind == kind :: s.attempts[p.attempt].ordinal
  }

  /** How many POSTs were sent for `kind`, and the sum of the ACU caps they carried. */
  function PostsOfKind(s: World, posts: seq<Post>, kind: Kind): nat
    requires forall p <- posts :: p.attempt < |s.attempts|
  {
    if posts == [] then 0
    else PostsOfKind(s, posts[..|posts| - 1], kind) +
         (if s.attempts[posts[|posts| - 1].attempt].kind == kind then 1 else 0)
  }

  function AcuCommitted(s: World, posts: seq<Post>, kind: Kind): nat
    requires forall p <- posts :: p.attempt < |s.attempts|
  {
    if posts == [] then 0
    else AcuCommitted(s, posts[..|posts| - 1], kind) +
         (if s.attempts[posts[|posts| - 1].attempt].kind == kind then AcuOf(s.config, kind) else 0)
  }

  lemma FreshOrdinal(s: World, k: nat, kind: Kind)
    requires Inv(s) && k < |s.posts| && (forall p <- s.posts :: p.attempt < |s.attempts|)
    requires s.attempts[s.posts[k].attempt].kind == kind
    ensures s.attempts[s.posts[k].attempt].ordinal !in PostedOrdinals(s, s.posts[..k], kind)
  {
    var mine := s.posts[k].attempt;
    forall p <- s.posts[..k] | s.attempts[p.attempt].kind == kind
      ensures s.attempts[p.attempt].ordinal != s.attempts[mine].ordinal
    {
      var j :| 0 <= j < k && s.posts[j] == p;
      assert s.posts[j].attempt != s.posts[k].attempt;
      if p.attempt < mine {
        assert s.attempts[p.attempt].ordinal != s.attempts[mine].ordinal;
      } else {
        assert s.attempts[mine].ordinal != s.attempts[p.attempt].ordinal;
      }
    }
  }

  lemma OrdinalsGrow(s: World, k: nat, kind: Kind)
    requires k < |s.posts| && (forall p <- s.posts :: p.attempt < |s.attempts|)
    ensures
      var a := s.attempts[s.posts[k].attempt];
      PostedOrdinals(s, s.posts[..k + 1], kind) ==
      PostedOrdinals(s, s.posts[..k], kind) + (if a.kind == kind then {a.ordinal} else {})
  {
    assert s.posts[..k + 1] == s.posts[..k] + [s.posts[k]];
  }

  lemma CountGrows(s: World, k: nat, kind: Kind)
    requires k < |s.posts| && (forall p <- s.posts :: p.attempt < |s.attempts|)
    ensures PostsOfKind(s, s.posts[..k + 1], kind) ==
            PostsOfKind(s, s.posts[..k], kind) + (if s.attempts[s.posts[k].attempt].kind == kind then 1 else 0)
  {
    assert s.posts[..k + 1][..k] == s.posts[..k];
  }

  lemma {:induction false} CountPosts(s: World, n: nat, kind: Kind)
    requires Inv(s) && n <= |s.posts| && (forall p <- s.posts :: p.attempt < |s.attempts|)
    ensures PostsOfKind(s, s.posts[..n], kind) == |PostedOrdinals(s, s.posts[..n], kind)|
  {
    hide Inv;
    if n == 0 {
      assert PostedOrdinals(s, s.posts[..n], kind) == {};
    } else {
      hide PostedOrdinals, PostsOfKind;
      CountPosts(s, n - 1, kind);
      CountGrows(s, n - 1, kind);
      OrdinalsGrow(s, n - 1, kind);
      if s.attempts[s.posts[n - 1].attempt].kind == kind { FreshOrdinal(s, n - 1, kind); }
    }
  }

  lemma {:induction false} AcuIsLinear(s: World, posts: seq<Post>, kind: Kind)
    requires forall p <- posts :: p.attempt < |s.attempts|
    ensures AcuCommitted(s, posts, kind) == PostsOfKind(s, posts, kind) * AcuOf(s.config, kind)
  {
    if posts != [] {
      hide AcuOf;
      AcuIsLinear(s, posts[..|posts| - 1], kind);
    }
  }

  lemma {:induction false} BoundedSet(xs: set<nat>, bound: nat)
    requires forall x <- xs :: 1 <= x <= bound
    ensures |xs| <= bound
  {
    if bound > 0 {
      BoundedSet(xs - {bound}, bound - 1);
      assert xs <= (xs - {bound}) + {bound};
    } else {
      assert xs == {};
    }
  }

  lemma PostedAreWithinCap(s: World, kind: Kind)
    requires Inv(s)
    ensures forall p <- s.posts :: p.attempt < |s.attempts|
    ensures forall x <- PostedOrdinals(s, s.posts, kind) :: 1 <= x <= s.config.maxAttempts
  {
    forall p <- s.posts ensures p.attempt < |s.attempts| {
      var k :| 0 <= k < |s.posts| && s.posts[k] == p;
      assert PostOk(s, s.posts[k]);
    }
  }

  /** Numbering and spend, over every run, also when two workers allocate the same ordinal:
      ordinals are distinct and lie in 1..max, keys are distinct, at most `maxAttempts` POSTs are
      sent per kind, and the ACU caps they carry sum to at most that many times the limit. */
  lemma SpendIsBounded(config: Config, es: seq<Event>, kind: Kind)
    ensures
      var s := Run(Initial(config), es);
      && (forall i | 0 <= i < |s.attempts| :: 1 <= s.attempts[i].ordinal <= config.maxAttempts)
      && (forall i, j | 0 <= i < j < |s.attempts| ::
            && s.attempts[i].key != s.attempts[j].key
            && (s.attempts[i].kind == s.attempts[j].kind ==> s.attempts[i].ordinal != s.attempts[j].ordinal))
      && (forall p <- s.posts :: p.attempt < |s.attempts|)
      && PostsOfKind(s, s.posts, kind) <= config.maxAttempts
      && AcuCommitted(s, s.posts, kind) <= config.maxAttempts * AcuOf(config, kind)
  {
    RunKeeps(config, es);
    var s := Run(Initial(config), es);
    PostedAreWithinCap(s, kind);
    CountPosts(s, |s.posts|, kind);
    assert s.posts[..|s.posts|] == s.posts;
    AcuIsLinear(s, s.posts, kind);
    BoundedSet(PostedOrdinals(s, s.posts, kind), config.maxAttempts);
    Scale(PostsOfKind(s, s.posts, kind), config.maxAttempts, AcuOf(config, kind));
  }

  lemma Scale(a: nat, b: nat, c: nat)
    requires a <= b
    ensures a * c <= b * c
  {}
}
