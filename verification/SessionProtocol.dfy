/** The steps of the durable-intent protocol. `Next` is total: an event that is not enabled, or
    whose remote answer the remote could not have given, leaves the world as it was. */
module SessionProtocol {
  import opened Wrappers
  import opened Tags
  import opened SessionModel
  import L = Lifecycle
  import S = Status

  // ------------------------------------------------------------------ building blocks

  function Goto(s: World, w: nat, pc: Pc): World
    requires w in s.processes
  {
    s.(processes := s.processes[w := s.processes[w].(pc := pc)])
  }

  /** The job ends and releases the claim if it is still its own. */
  function Stop(s: World, w: nat): World
    requires w in s.processes
  {
    s.(processes := s.processes - {w},
       claimedBy := if s.processes[w].fence.Some? && s.claimedBy == s.processes[w].fence then None else s.claimedBy)
  }

  /** A refused compare-and-swap rolls the transaction back; a worker then cancels unsent rows. */
  function Lost(s: World, w: nat): World
    requires w in s.processes
  {
    if s.processes[w].fence.Some? then Goto(s, w, Abandoning) else Stop(s, w)
  }

  predicate CanMove(s: World, w: nat, to: L.CaseState)
    requires w in s.processes
  {
    var p := s.processes[w];
    L.Allowed(p.mem, to, false) && s.state == p.mem && (p.fence.Some? ==> s.claimedBy == p.fence)
  }

  function Moved(s: World, w: nat, to: L.CaseState): World
    requires w in s.processes
  {
    s.(state := to, processes := s.processes[w := s.processes[w].(mem := to)])
  }

  function SetRow(s: World, i: nat, a: Attempt): (t: World)
    requires i < |s.attempts|
    ensures t.processes == s.processes && |t.attempts| == |s.attempts|
  {
    s.(attempts := s.attempts[i := a])
  }

  function LiveRows(attempts: seq<Attempt>): set<nat> {
    set i | 0 <= i < |attempts| && Active(attempts[i]) && attempts[i].sent
  }

  function FailureParked(a: Attempt): Attempt {
    a.(status := TerminationPending, reason := WorkerError)
  }

  function CancelParked(a: Attempt): Attempt {
    a.(status := TerminationPending, reason := CancelRequested)
  }

  function CancelledRow(a: Attempt): Attempt { Closed(a, Cancelled) }

  function TerminationConfirmed(a: Attempt): Attempt { Closed(a, Cancelled).(reason := NoReason) }

  function Superseded(a: Attempt): Attempt { a.(status := Cancelled) }

  /** `fail_case`: None when its transition is refused. */
  function FailCase(s: World, w: nat): (r: Option<World>)
    requires w in s.processes
    ensures r.Some? ==> w in r.value.processes
  {
    var mem := s.processes[w].mem;
    var phase := L.PhaseForState(mem);
    var live := LiveRows(s.attempts);
    if L.Terminal(mem) then Some(s)
    else if live != {} then
      var parked := s.(attempts := Rewrite(s.attempts, live, FailureParked));
      if mem == phase.terminationPending then Some(parked)
      else if CanMove(parked, w, phase.terminationPending) then Some(Moved(parked, w, phase.terminationPending))
      else None
    else if CanMove(s, w, phase.failed) then Some(Moved(s, w, phase.failed))
    else None
  }

  /** Nothing but rows differs between a transaction and the state it started from. */
  predicate OnlyRows(s: World, changed: World) {
    changed == s.(attempts := changed.attempts) && |changed.attempts| == |s.attempts|
  }

  /** Commit `changed` together with `fail_case` and end the job, or roll back to `s`: all or
      nothing. A committed failure parks exactly the live rows. */
  function FailJob(s: World, changed: World, w: nat): (t: World)
    requires w in s.processes && OnlyRows(s, changed)
    ensures t.processes == s.processes - {w} || t.processes == s.processes[w := s.processes[w].(pc := Abandoning)]
    ensures t == s.(processes := t.processes, attempts := t.attempts, state := t.state, claimedBy := t.claimedBy)
    ensures t.state == s.state || L.Allowed(s.state, t.state, false)
    ensures t.state in {s.state, L.PhaseForState(s.state).failed, L.PhaseForState(s.state).terminationPending}
    ensures t.state != s.state ==>
              s.state == s.processes[w].mem &&
              (L.Terminal(t.state) ==> t.attempts == changed.attempts && LiveRows(t.attempts) == {})
    ensures t.attempts == s.attempts || t.attempts == changed.attempts ||
            t.attempts == Rewrite(changed.attempts, LiveRows(changed.attempts), FailureParked)
  {
    match FailCase(changed, w)
    case Some(t) => Stop(t, w)
    case None => Lost(s, w)
  }

  /** Commit `changed` with a transition to `to` and continue at `pc`, or roll back to `s`. */
  function MoveOn(s: World, changed: World, w: nat, to: L.CaseState, pc: Pc): (t: World)
    requires w in s.processes && OnlyRows(s, changed)
    ensures t.attempts == changed.attempts || t.attempts == s.attempts
  {
    if CanMove(changed, w, to) then Goto(Moved(changed, w, to), w, pc) else Lost(s, w)
  }

  function MoveAndStop(s: World, changed: World, w: nat, to: L.CaseState): World
    requires w in s.processes && OnlyRows(s, changed)
  {
    if CanMove(changed, w, to) then Stop(Moved(changed, w, to), w) else Lost(s, w)
  }

  // ------------------------------------------------------------------ the remote

  predicate Quiet(sessions: map<nat, Session>, sid: nat) { sid in sessions ==> sessions[sid].phase != Working }

  predicate IsGone(sessions: map<nat, Session>, sid: nat) { sid in sessions ==> sessions[sid].phase == Gone }

  /** Answers the remote can give: not found only when it is gone; finished, failed or ended
      only when it no longer works; waiting only without output (`_disposition`). */
  predicate TruthfulGet(s: World, sid: nat, got: GetAnswer) {
    match got
    case GetError => true
    case GetNotFound => IsGone(s.sessions, sid)
    case Snapshot(d, ended, output, _) =>
      && (d == S.Finished || d == S.Failed || ended ==> Quiet(s.sessions, sid))
      && (d == S.WaitingForHuman ==> !output)
  }

  predicate TruthfulDelete(s: World, sid: nat, answer: DeleteAnswer) {
    answer.DeleteNotFound? ==> IsGone(s.sessions, sid)
  }

  function AfterDelete(s: World, sid: nat, answer: DeleteAnswer): World {
    if answer.Deleted? then s.(sessions := Delete(s.sessions, {sid})) else s
  }

  /** Every deleted session carried the tag that was searched for. */
  predicate Carry(s: World, sids: set<nat>, tag: string) {
    forall sid <- sids :: sid in s.sessions && s.sessions[sid].tag == tag
  }

  predicate TruthfulSweep(s: World, tag: string, sweep: SweepAnswer) {
    match sweep
    case Swept(matches) => Carry(s, matches, tag)
    case SweepError(deleted) => Carry(s, deleted, tag)
  }

  function AfterSweep(s: World, sweep: SweepAnswer): World {
    s.(sessions := Delete(s.sessions, if sweep.Swept? then sweep.matches else sweep.deleted))
  }

  // ------------------------------------------------------------------ scheduler, environment

  predicate Retained(a: Attempt) { a.kind == Triage && a.status == Blocked && a.session.Some? }

  predicate Claimable(s: World) {
    || s.state in {L.Received, L.TriageCreateIntent, L.Triaging, L.ReconcilingCreate, L.TerminationPending}
    || L.InRemediation(s.state)
    || (s.state == L.HumanBlocked &&
        exists i | 0 <= i < |s.attempts| :: Retained(s.attempts[i]) && s.attempts[i].reason != NoOutput(true))
  }

  /** A lapsed lease lets any worker claim at any time, also while the former holder still runs. */
  function OnClaim(s: World, w: nat): World {
    if w in s.processes || !Claimable(s) then s
    else s.(claimedBy := Some(w), runs := s.runs + 1,
            processes := s.processes[w := Process(Dispatching, s.state, s.runs, Some(w))])
  }

  function RetainedRows(attempts: seq<Attempt>): seq<nat> { Select(attempts, Retained, |attempts|) }

  function OnOperatorReconcile(s: World, w: nat): World {
    if w in s.processes || s.state != L.HumanBlocked then s
    else
      var rows := RetainedRows(s.attempts);
      s.(runs := s.runs + 1,
         processes := s.processes[w := Process(Rereading(rows, rows, []), s.state, s.runs, None)])
  }

  function OnRemoteStops(s: World, sid: nat): World {
    if sid in s.sessions && s.sessions[sid].phase == Working
    then s.(sessions := s.sessions[sid := s.sessions[sid].(phase := Stopped)]) else s
  }

  // ------------------------------------------------------------------ operator

  predicate MayOwn(s: World) { exists i | 0 <= i < |s.attempts| :: Owning(s.attempts[i]) && s.attempts[i].sent }

  function CancelTarget(s: World): L.CaseState {
    var phase := L.PhaseForState(s.state);
    if s.state == L.Triaging || s.state == L.Remediating || MayOwn(s) then phase.terminationPending
    else if L.InRemediation(s.state) && !L.Terminal(s.state) then L.RemediationCancelled
    else L.Cancelled
  }

  function OnOperatorCancel(s: World): World {
    var to := CancelTarget(s);
    if L.Allowed(s.state, to, false) then s.(state := to) else s
  }

  predicate Unacknowledged(a: Attempt) {
    a.createState == Unresolved && (a.status == Blocked || a.status == Reconciling) && a.reason != Acknowledged
  }

  function UnackedRows(attempts: seq<Attempt>): set<nat> {
    set i | 0 <= i < |attempts| && Unacknowledged(attempts[i])
  }

  function Acked(a: Attempt): Attempt { a.(reason := Acknowledged) }

  predicate Unreconciled(a: Attempt) { Retained(a) && !a.reason.NoOutput? }

  predicate CapReached(s: World, kind: Kind) {
    CountOf(s.attempts, kind) > 0 && CountOf(s.attempts, kind) >= s.config.maxAttempts
  }

  function OnOperatorRetry(s: World, confirm: bool): World {
    var unacked := UnackedRows(s.attempts);
    if unacked != {} && !confirm then s
    else
      var acked := s.(attempts := Rewrite(s.attempts, unacked, Acked));
      if L.InRemediation(s.state) then
        if s.state !in L.REMEDIATION_RETRYABLE_STATES || !L.Allowed(s.state, L.RemediationApproved, false) then s
        else if exists i | 0 <= i < |s.attempts| :: ActiveOf(s.attempts[i], Remediation) then s
        else if CountOf(s.attempts, Remediation) >= s.config.maxAttempts then s
        else acked.(state := L.RemediationApproved)
      else if s.state == L.HumanBlocked && (exists i | 0 <= i < |acked.attempts| :: Unreconciled(acked.attempts[i])) then s
      else if CapReached(s, Triage) || CapReached(s, Remediation) then s
      else if !L.Allowed(s.state, L.Received, false) then s
      else acked.(state := L.Received)
  }

  function OnApprovalMove(s: World, to: L.CaseState): World {
    if s.state in {L.AwaitingRemediationApproval, L.ApprovalDeliveryFailed} && L.Allowed(s.state, to, false) &&
       to in {L.RemediationApproved, L.RemediationRejected, L.ApprovalDeliveryFailed}
    then s.(state := to) else s
  }

  // ------------------------------------------------------------------ process_case

  function OnEvaluate(s: World, w: nat): World {
    if w !in s.processes || s.processes[w].pc != Dispatching || s.processes[w].mem != L.Received then s
    else MoveOn(s, s, w, L.EligibilityEvaluated, Evaluated)
  }

  function OnAdmit(s: World, w: nat, eligible: bool): World {
    if w !in s.processes || s.processes[w].pc != Evaluated then s
    else if eligible then MoveOn(s, s, w, L.TriageCreateIntent, Entered(Triage))
    else MoveAndStop(s, s, w, L.PolicyRejected)
  }

  predicate Pending(a: Attempt) { a.status == TerminationPending }

  /** `_active_kind`: the kind of the newest active attempt. */
  predicate NewestActiveIsTriage(s: World) {
    var active := Select(s.attempts, Active, |s.attempts|);
    active != [] && (assert active[0] in active; s.attempts[active[0]].kind == Triage)
  }

  function TerminationEntry(s: World, w: nat, pick: nat, remediation: bool): World
    requires w in s.processes
  {
    if forall i | 0 <= i < |s.attempts| :: !Pending(s.attempts[i]) then
      Goto(s, w, Terminating(Select(s.attempts, Owning, |s.attempts|), {}, {}))
    else if pick < |s.attempts| && Pending(s.attempts[pick]) then
      Goto(s, w, Entered(if remediation then Remediation else s.attempts[pick].kind))
    else s
  }

  function OnDispatch(s: World, w: nat, pick: nat): World {
    if w !in s.processes || s.processes[w].pc != Dispatching then s
    else
      var mem := s.processes[w].mem;
      if mem == L.TriageCreateIntent || mem == L.Triaging then Goto(s, w, Entered(Triage))
      else if mem == L.ReconcilingCreate then
        if NewestActiveIsTriage(s) then Goto(s, w, Entered(Triage)) else Stop(s, w)
      else if mem == L.HumanBlocked then
        Goto(s, w, Rereading(RetainedRows(s.attempts), RetainedRows(s.attempts), []))
      else if mem == L.TerminationPending then TerminationEntry(s, w, pick, false)
      else if mem == L.RemediationTerminationPending then TerminationEntry(s, w, pick, true)
      else if mem in L.REMEDIATION_SESSION_STATES then Goto(s, w, Entered(Remediation))
      else s
  }

  /** The rest of the remediation pipeline is not modelled: any edge inside its own phase. */
  function OnPipelineMove(s: World, w: nat, to: L.CaseState, flagged: bool): World {
    if w !in s.processes || s.processes[w].pc != Dispatching then s
    else
      var p := s.processes[w];
      if L.InRemediation(p.mem) && p.mem !in L.REMEDIATION_SESSION_STATES && L.Allowed(p.mem, to, flagged) &&
         s.state == p.mem && s.claimedBy == p.fence
      then Moved(s, w, to) else s
  }

  function OnPipelineFail(s: World, w: nat): World {
    if w !in s.processes || s.processes[w].pc != Dispatching || !L.InRemediation(s.processes[w].mem) ||
       s.processes[w].mem == L.RemediationTerminationPending then s
    else FailJob(s, s, w)
  }

  // ------------------------------------------------------------------ run and _create

  predicate Unsettled(a: Attempt, kind: Kind) { a.kind == kind && (a.status == Blocked || a.status == Reconciling) }

  function OnEnter(s: World, w: nat, granted: bool): World {
    if w !in s.processes || !s.processes[w].pc.Entered? then s
    else
      var p := s.processes[w];
      var kind := p.pc.kind;
      match NewestActive(s.attempts, kind, |s.attempts|)
      case None =>
        if !granted then Stop(s, w)
        else
          var ordinal := NextOrdinal(s.attempts, kind);
          if ordinal > s.config.maxAttempts then FailJob(s, s, w)
          else Goto(s, w, Settling(kind, ordinal, Select(s.attempts, a => Unsettled(a, kind), |s.attempts|), {}))
      case Some(i) =>
        var a := s.attempts[i];
        if a.status == TerminationPending then Goto(s, w, if a.session.None? then Sweeping(i) else Handling(i))
        else if a.session.None? then Goto(s, w, BeginReconcile(i))
        else if p.mem == PhaseOf(kind).reconciling || p.mem == PhaseOf(kind).intent then
          MoveOn(s, s, w, PhaseOf(kind).running, Polling(i))
        else Goto(s, w, Polling(i))
  }

  function CancelledRows(s: World, closed: set<nat>): World {
    s.(attempts := Rewrite(s.attempts, closed, CancelledRow))
  }

  /** One attempt of `_settle_previous_sessions`: up to and including its GET. */
  function OnSettleStep(s: World, w: nat, got: GetAnswer): World {
    if w !in s.processes || !s.processes[w].pc.Settling? || s.processes[w].pc.todo == [] then s
    else
      var Settling(kind, ordinal, todo, closed) := s.processes[w].pc;
      var i, rest := todo[0], todo[1..];
      if i >= |s.attempts| then s
      else
        var a := s.attempts[i];
        if a.createState == Unresolved then
          if a.reason != Acknowledged then FailJob(s, CancelledRows(s, closed), w)
          else Goto(s, w, Settling(kind, ordinal, rest, closed + {i}))
        else if a.session.None? then Goto(s, w, Settling(kind, ordinal, rest, closed))
        else if !TruthfulGet(s, a.session.value, got) then s
        else
          match got
          case GetError => FailJob(s, CancelledRows(s, closed), w)
          case GetNotFound => Goto(s, w, Settling(kind, ordinal, rest, closed + {i}))
          case Snapshot(_, _, output, _) =>
            if output then FailJob(s, CancelledRows(s, closed), w)
            else Goto(s, w, SettleDelete(kind, ordinal, todo, closed))
  }

  function OnSettleDeleted(s: World, w: nat, answer: DeleteAnswer): World {
    if w !in s.processes || !s.processes[w].pc.SettleDelete? || s.processes[w].pc.todo == [] then s
    else
      var SettleDelete(kind, ordinal, todo, closed) := s.processes[w].pc;
      var i := todo[0];
      if i >= |s.attempts| || s.attempts[i].session.None? || !TruthfulDelete(s, s.attempts[i].session.value, answer) then s
      else if answer.DeleteError? then FailJob(s, CancelledRows(s, closed), w)
      else Goto(AfterDelete(s, s.attempts[i].session.value, answer), w, Settling(kind, ordinal, todo[1..], closed + {i}))
  }

  function OnSettleCommit(s: World, w: nat): World {
    if w !in s.processes || !s.processes[w].pc.Settling? || s.processes[w].pc.todo != [] then s
    else
      var pc := s.processes[w].pc;
      Goto(CancelledRows(s, pc.closed), w, Inserting(pc.kind, pc.ordinal))
  }

  function KeyFor(caseId: string, kind: Kind, resultHash: string, baseSha: string, ordinal: nat): Option<string> {
    match kind
    case Triage => Some(OperationKey(caseId, Triage, ordinal))
    case Remediation => RemediationOperationKey(caseId, resultHash, baseSha, ordinal)
  }

  /** The three unique indexes of the table: operation key, ordinal, one unfinished per kind. */
  predicate Insertable(attempts: seq<Attempt>, a: Attempt) {
    forall i | 0 <= i < |attempts| ::
      && attempts[i].key != a.key
      && (attempts[i].kind == a.kind ==> attempts[i].ordinal != a.ordinal && attempts[i].finished)
  }

  function OnInsert(s: World, w: nat, resultHash: string, baseSha: string): World {
    if w !in s.processes || !s.processes[w].pc.Inserting? then s
    else
      var p := s.processes[w];
      match KeyFor(s.config.caseId, p.pc.kind, resultHash, baseSha, p.pc.ordinal)
      case None => s.(processes := s.processes - {w})
      case Some(key) =>
        var a := Attempt(p.pc.kind, p.pc.ordinal, key, CreateState.Pending, Running, false, None, false, false, NoReason);
        if !Insertable(s.attempts, a) then s.(processes := s.processes - {w})
        else Goto(s.(attempts := s.attempts + [a], inserters := s.inserters + [p.run]), w, Building(|s.attempts|))
  }

  function OnBuild(s: World, w: nat, ok: bool): World {
    if w !in s.processes || !s.processes[w].pc.Building? || s.processes[w].pc.attempt >= |s.attempts| then s
    else
      var i := s.processes[w].pc.attempt;
      var a := s.attempts[i];
      if ok then Goto(SetRow(s, i, a.(sent := true)), w, Posting(i))
      else FailJob(s, SetRow(s, i, a.(createState := NotSent, status := Failed, finished := true)), w)
  }

  /** The single POST. A session may or may not exist afterwards when the answer is lost. */
  function OnSendPost(s: World, w: nat, posted: PostAnswer, sid: nat): World {
    if w !in s.processes || !s.processes[w].pc.Posting? || s.processes[w].pc.attempt >= |s.attempts| ||
       sid in s.sessions then s
    else
      var p := s.processes[w];
      var i := p.pc.attempt;
      var key := s.attempts[i].key;
      var sent := s.(posts := s.posts + [Post(i, key, p.run)]);
      var born := sent.(sessions := s.sessions[sid := Session(key, Working)]);
      match posted
      case PostAccepted => Goto(born, w, Attaching(i, sid, Created))
      case PostRefused => Goto(sent, w, Refused(i))
      case PostLost(created) => Goto(if created then born else sent, w, OutcomeUnknown(i))
  }

  /** `_attach`: bind the session, or cancel the row and delete the orphan when the claim is lost. */
  function OnAttach(s: World, w: nat): World {
    if w !in s.processes || !s.processes[w].pc.Attaching? || s.processes[w].pc.attempt >= |s.attempts| then s
    else
      var Attaching(i, sid, created) := s.processes[w].pc;
      var a := s.attempts[i].(createState := created, session := Some(sid));
      var running := PhaseOf(a.kind).running;
      var bound := SetRow(s, i, a.(status := Running, reason := NoReason));
      if CanMove(bound, w, running) then Goto(Moved(bound, w, running), w, Polling(i))
      else Goto(SetRow(s, i, Closed(a, Cancelled)), w, Orphaned(sid))
  }

  function OnDeleteOrphan(s: World, w: nat, answer: DeleteAnswer): World {
    if w !in s.processes || !s.processes[w].pc.Orphaned? || !TruthfulDelete(s, s.processes[w].pc.sid, answer) then s
    else Lost(AfterDelete(s, s.processes[w].pc.sid, answer), w)
  }

  function OnRecordRefusal(s: World, w: nat): World {
    if w !in s.processes || !s.processes[w].pc.Refused? || s.processes[w].pc.attempt >= |s.attempts| then s
    else
      var i := s.processes[w].pc.attempt;
      FailJob(s, SetRow(s, i, Closed(s.attempts[i], Failed).(createState := ApiError)), w)
  }

  function OnRecordUnknown(s: World, w: nat): World {
    if w !in s.processes || !s.processes[w].pc.OutcomeUnknown? || s.processes[w].pc.attempt >= |s.attempts| then s
    else
      var i := s.processes[w].pc.attempt;
      var a := s.attempts[i].(createState := Uncertain, status := Reconciling, reason := OtherReason);
      MoveOn(s, SetRow(s, i, a), w, PhaseOf(a.kind).reconciling, BeginReconcile(i))
  }

  function OnStartReconcile(s: World, w: nat): World {
    if w !in s.processes || !s.processes[w].pc.BeginReconcile? || s.processes[w].pc.attempt >= |s.attempts| then s
    else
      var i := s.processes[w].pc.attempt;
      var a := s.attempts[i].(status := Reconciling);
      var marked := if a.createState == CreateState.Pending then a.(createState := Uncertain, reason := OtherReason) else a;
      var phase := PhaseOf(a.kind);
      if s.processes[w].mem == phase.intent then MoveOn(s, SetRow(s, i, marked), w, phase.reconciling, Searching(i))
      else Goto(SetRow(s, i, marked), w, Searching(i))
  }

  function OnSearch(s: World, w: nat, found: SearchAnswer): World {
    if w !in s.processes || !s.processes[w].pc.Searching? || s.processes[w].pc.attempt >= |s.attempts| then s
    else
      var i := s.processes[w].pc.attempt;
      match found
      case OneMatch(sid) =>
        if sid in s.sessions && s.sessions[sid].tag == s.attempts[i].key then Goto(s, w, Attaching(i, sid, Reconciled)) else s
      case NoSingleMatch => Goto(s, w, Unmatched(i))
  }

  function OnBlockUnmatched(s: World, w: nat): World {
    if w !in s.processes || !s.processes[w].pc.Unmatched? || s.processes[w].pc.attempt >= |s.attempts| then s
    else
      var i := s.processes[w].pc.attempt;
      var a := Closed(s.attempts[i], Blocked).(createState := Unresolved, reason := OtherReason);
      MoveAndStop(s, SetRow(s, i, a), w, PhaseOf(a.kind).humanBlocked)
  }

  // ------------------------------------------------------------------ _poll, _settle, _finish_triage

  /** `_cancel_requested` re-reads the case state; then the absolute deadline is checked. */
  function OnPollCheck(s: World, w: nat, expired: bool): World {
    if w !in s.processes || !s.processes[w].pc.Polling? || s.processes[w].pc.attempt >= |s.attempts| then s
    else
      var i := s.processes[w].pc.attempt;
      var reread := s.(processes := s.processes[w := s.processes[w].(mem := s.state)]);
      if L.IsTerminationPending(s.state) then
        Goto(SetRow(reread, i, s.attempts[i].(status := TerminationPending, reason := CancelRequested)), w, Handling(i))
      else Goto(reread, w, if expired then Handling(i) else PollGet(i))
  }

  predicate KnowsSession(s: World, i: nat, got: GetAnswer) {
    i < |s.attempts| && s.attempts[i].session.Some? && TruthfulGet(s, s.attempts[i].session.value, got)
  }

  function OnPollAnswer(s: World, w: nat, got: GetAnswer): World {
    if w !in s.processes || !s.processes[w].pc.PollGet? || !KnowsSession(s, s.processes[w].pc.attempt, got) then s
    else
      var i := s.processes[w].pc.attempt;
      var a := s.attempts[i];
      var uncertain := SetRow(s, i, a.(status := Reconciling, reason := OtherReason));
      var seen := SetRow(s, i, a.(status := Running, reason := NoReason));
      match got
      case GetError => Goto(uncertain, w, Polling(i))
      case GetNotFound => Goto(s, w, SessionLost(i))
      case Snapshot(d, _, output, _) =>
        if d == S.Unknown then Goto(uncertain, w, Polling(i))
        else if d == S.Live then Goto(seen, w, Polling(i))
        else Goto(seen, w, Settled(i, d, output))
  }

  function OnRecordLost(s: World, w: nat): World {
    if w !in s.processes || !s.processes[w].pc.SessionLost? || s.processes[w].pc.attempt >= |s.attempts| then s
    else
      var i := s.processes[w].pc.attempt;
      FailJob(s, SetRow(s, i, Closed(s.attempts[i], Failed)), w)
  }

  function OnSettleOutcome(s: World, w: nat): World {
    if w !in s.processes || !s.processes[w].pc.Settled? || s.processes[w].pc.attempt >= |s.attempts| then s
    else
      var Settled(i, d, output) := s.processes[w].pc;
      var a := s.attempts[i];
      match d
      case Finished => Goto(SetRow(s, i, a.(output := output, finished := true)), w, Finishing(i))
      case WaitingForHuman => MoveAndStop(s, SetRow(s, i, Closed(a, Blocked)), w, PhaseOf(a.kind).humanBlocked)
      case _ => FailJob(s, SetRow(s, i, Closed(a, Failed)), w)
  }

  /** `_finish_triage` (both of its transitions in one commit), or the remediation hand-over. */
  function OnFinish(s: World, w: nat, valid: bool): World {
    if w !in s.processes || !s.processes[w].pc.Finishing? || s.processes[w].pc.attempt >= |s.attempts| then s
    else
      var i := s.processes[w].pc.attempt;
      var a := s.attempts[i];
      var succeeded := SetRow(s, i, a.(status := Succeeded));
      if a.kind == Remediation then MoveAndStop(s, succeeded, w, L.OutputValidating)
      else if !valid || !a.output then FailJob(s, SetRow(s, i, a.(status := Failed, output := false)), w)
      else if CanMove(succeeded, w, L.Triaged) then
        Stop(Moved(Moved(succeeded, w, L.Triaged), w, L.AwaitingRemediationApproval), w)
      else Lost(s, w)
  }

  // ------------------------------------------------------------------ timeout and termination

  function OnTimeoutGet(s: World, w: nat, got: GetAnswer): World {
    if w !in s.processes || !s.processes[w].pc.Handling? || !KnowsSession(s, s.processes[w].pc.attempt, got) then s
    else
      var i := s.processes[w].pc.attempt;
      var a := s.attempts[i];
      match got
      case GetError => Goto(s, w, Deleting(i))
      case GetNotFound => Goto(s, w, Closing(i))
      case Snapshot(d, ended, output, _) =>
        if d == S.Failed && s.processes[w].mem == PhaseOf(a.kind).terminationPending then Goto(s, w, Closing(i))
        else if d == S.Finished || d == S.WaitingForHuman || d == S.Failed then
          Goto(SetRow(s, i, a.(status := Running)), w, Settled(i, d, output))
        else Goto(s, w, if ended then Closing(i) else Deleting(i))
  }

  function OnTimeoutDelete(s: World, w: nat, answer: DeleteAnswer): World {
    if w !in s.processes || !s.processes[w].pc.Deleting? then s
    else
      var i := s.processes[w].pc.attempt;
      if i >= |s.attempts| || s.attempts[i].session.None? || !TruthfulDelete(s, s.attempts[i].session.value, answer) then s
      else Goto(AfterDelete(s, s.attempts[i].session.value, answer), w,
                if answer.DeleteError? then DeleteFailed(i) else Closing(i))
  }

  function OnPark(s: World, w: nat): World {
    if w !in s.processes || !s.processes[w].pc.DeleteFailed? || s.processes[w].pc.attempt >= |s.attempts| then s
    else
      var i := s.processes[w].pc.attempt;
      var a := s.attempts[i];
      var keep := a.reason.CancelRequested? || a.reason.WorkerError?;
      var parked := SetRow(s, i, a.(status := TerminationPending, reason := if keep then a.reason else OtherReason));
      var phase := PhaseOf(a.kind);
      if s.processes[w].mem != phase.terminationPending then MoveAndStop(s, parked, w, phase.terminationPending)
      else Stop(parked, w)
  }

  function OnSweepTag(s: World, w: nat, sweep: SweepAnswer): World {
    if w !in s.processes || !s.processes[w].pc.Sweeping? then s
    else
      var i := s.processes[w].pc.attempt;
      if i >= |s.attempts| || !TruthfulSweep(s, s.attempts[i].key, sweep) then s
      else if sweep.Swept? then Goto(AfterSweep(s, sweep), w, Closing(i))
      else Stop(SetRow(AfterSweep(s, sweep), i, s.attempts[i].(reason := OtherReason)), w)
  }

  /** `_mark_terminated`: what the end is called depends on why termination was asked for. */
  function OnCloseOut(s: World, w: nat, expired: bool): World {
    if w !in s.processes || !s.processes[w].pc.Closing? || s.processes[w].pc.attempt >= |s.attempts| then s
    else
      var i := s.processes[w].pc.attempt;
      var a := s.attempts[i];
      var phase := PhaseOf(a.kind);
      var (status, to) :=
        if a.reason.CancelRequested? && !expired then (Cancelled, phase.cancelled)
        else if a.reason.WorkerError? && !expired then (Failed, phase.failed)
        else (TimedOut, phase.timedOut);
      MoveAndStop(s, SetRow(s, i, Closed(a, status).(reason := NoReason)), w, to)
  }

  /** One attempt of `terminate_running_attempts`; the rows change only at its commit. */
  function OnTerminateOne(s: World, w: nat, answer: DeleteAnswer, sweep: SweepAnswer): World {
    if w !in s.processes || !s.processes[w].pc.Terminating? || s.processes[w].pc.todo == [] then s
    else
      var Terminating(todo, closed, parked) := s.processes[w].pc;
      var i, rest := todo[0], todo[1..];
      if i >= |s.attempts| then s
      else
        var a := s.attempts[i];
        if a.session.Some? then
          if !TruthfulDelete(s, a.session.value, answer) then s
          else if answer.DeleteError? then Goto(s, w, Terminating(rest, closed, parked + {i}))
          else Goto(AfterDelete(s, a.session.value, answer), w, Terminating(rest, closed + {i}, parked))
        else if a.sent then
          if !TruthfulSweep(s, a.key, sweep) then s
          else if sweep.Swept? then Goto(AfterSweep(s, sweep), w, Terminating(rest, closed + {i}, parked))
          else Goto(AfterSweep(s, sweep), w, Terminating(rest, closed, parked + {i}))
        else Goto(s, w, Terminating(rest, closed + {i}, parked))
  }

  function OnTerminateCommit(s: World, w: nat): World {
    if w !in s.processes || !s.processes[w].pc.Terminating? || s.processes[w].pc.todo != [] then s
    else
      var Terminating(_, closed, parked) := s.processes[w].pc;
      var kept := s.(attempts := Rewrite(s.attempts, parked, CancelParked));
      var ended := kept.(attempts := Rewrite(kept.attempts, closed, TerminationConfirmed));
      if parked != {} then Stop(ended, w)
      else MoveAndStop(s, ended, w, L.PhaseForState(s.processes[w].mem).cancelled)
  }

  // ------------------------------------------------------------------ reconcile_blocked

  function OnReread(s: World, w: nat, got: GetAnswer): World {
    if w !in s.processes || !s.processes[w].pc.Rereading? || s.processes[w].pc.todo == [] then s
    else
      var Rereading(candidates, todo, found) := s.processes[w].pc;
      var i := todo[0];
      if !KnowsSession(s, i, got) then s
      else
        var a := s.attempts[i];
        match got
        case GetError => Goto(SetRow(s, i, a.(reason := OtherReason)), w, Rereading(candidates, todo[1..], found))
        case GetNotFound => Goto(SetRow(s, i, a.(reason := NoOutput(true))), w, Rereading(candidates, todo[1..], found))
        case Snapshot(_, _, output, valid) =>
          if output then Goto(s, w, Rereading(candidates, todo[1..], found + [(i, valid)]))
          else Goto(SetRow(s, i, a.(reason := NoOutput(false))), w, Rereading(candidates, todo[1..], found))
  }

  /** The newest valid output, or the newest output when none is valid. */
  function Chosen(found: seq<(nat, bool)>): (r: nat)
    requires found != []
    ensures exists e <- found :: e.0 == r
  {
    if found[0].1 then found[0].0
    else if exists e <- found[1..] :: e.1 then
      var tail := found[1..];
      var r := Chosen(tail);
      assert forall e <- tail :: e in found;
      r
    else found[0].0
  }

  function OnIngest(s: World, w: nat): World {
    if w !in s.processes || !s.processes[w].pc.Rereading? || s.processes[w].pc.todo != [] then s
    else
      var p := s.processes[w];
      var Rereading(candidates, _, found) := p.pc;
      if found == [] then Stop(s, w)
      else
        var i := Chosen(found);
        if i >= |s.attempts| then s
        else
          var others := set j <- candidates | j != i;
          var superseded := s.(attempts := Rewrite(s.attempts, others, Superseded));
          var ingested := SetRow(superseded, i, s.attempts[i].(status := Running, reason := NoReason));
          if p.mem == L.HumanBlocked then MoveOn(s, ingested, w, L.Triaging, Settled(i, S.Finished, true))
          else Goto(ingested, w, Settled(i, S.Finished, true))
  }

  // ------------------------------------------------------------------ abandoning a job

  function OnAbandon(s: World, w: nat): World {
    if w !in s.processes || s.processes[w].pc != Abandoning then s
    else
      var unsent := set i | 0 <= i < |s.attempts| && Active(s.attempts[i]) && !s.attempts[i].sent;
      Stop(s.(attempts := Rewrite(s.attempts, unsent, CancelledRow)), w)
  }

  // ------------------------------------------------------------------ the lock on the case row

  /** The process that takes the step, if the event is a step of a process. */
  function Actor(e: Event): Option<nat> {
    match e
    case ClaimCase(w) => Some(w)
    case OperatorReconcile(w) => Some(w)
    case Evaluate(w) => Some(w)
    case Admit(w, _) => Some(w)
    case Dispatch(w, _) => Some(w)
    case PipelineMove(w, _, _) => Some(w)
    case PipelineFail(w) => Some(w)
    case Enter(w, _) => Some(w)
    case SettleStep(w, _) => Some(w)
    case SettleDeleted(w, _) => Some(w)
    case SettleCommit(w) => Some(w)
    case Insert(w, _, _) => Some(w)
    case Build(w, _) => Some(w)
    case SendPost(w, _, _) => Some(w)
    case Attach(w) => Some(w)
    case DeleteOrphan(w, _) => Some(w)
    case RecordRefusal(w) => Some(w)
    case RecordUnknown(w) => Some(w)
    case StartReconcile(w) => Some(w)
    case Search(w, _) => Some(w)
    case BlockUnmatched(w) => Some(w)
    case PollCheck(w, _) => Some(w)
    case PollAnswer(w, _) => Some(w)
    case RecordLost(w) => Some(w)
    case SettleOutcome(w) => Some(w)
    case Finish(w, _) => Some(w)
    case TimeoutGet(w, _) => Some(w)
    case TimeoutDelete(w, _) => Some(w)
    case Park(w) => Some(w)
    case SweepTag(w, _) => Some(w)
    case CloseOut(w, _) => Some(w)
    case TerminateOne(w, _, _) => Some(w)
    case TerminateCommit(w) => Some(w)
    case Reread(w, _) => Some(w)
    case Ingest(w) => Some(w)
    case Abandon(w) => Some(w)
    case _ => None
  }

  /** Two transactions keep the row of the case locked while they talk to the remote: the one that
      allocates an ordinal, up to the commit that settles the earlier attempts; and the operator's
      re-reading, until a session without output makes it commit. */
  predicate HoldsCase(p: Process) {
    || p.pc.Settling? || p.pc.SettleDelete?
    || (p.pc.Rereading? && p.fence.None? && |p.pc.todo| + |p.pc.found| == |p.pc.candidates|)
  }

  /** The step writes the case's state or takes the lock on its row. */
  predicate NeedsCase(s: World, t: World, e: Event) {
    || t.state != s.state
    || (Actor(e).Some? &&
        var w := Actor(e).value;
        w in t.processes && HoldsCase(t.processes[w]) && !(w in s.processes && HoldsCase(s.processes[w])))
  }

  /** The step has to wait for a lock that another process holds. */
  predicate Waits(s: World, t: World, e: Event) {
    NeedsCase(s, t, e) && exists v <- s.processes :: Actor(e) != Some(v) && HoldsCase(s.processes[v])
  }

  // ------------------------------------------------------------------ runs

  /** What the event does once nothing stands in its way. */
  function Effect(s: World, e: Event): World {
    match e
    case ClaimCase(w) => OnClaim(s, w)
    case OperatorReconcile(w) => OnOperatorReconcile(s, w)
    case Crash(w) => s.(processes := s.processes - {w})
    case RemoteStops(sid) => OnRemoteStops(s, sid)
    case RemoteVanishes(sid) => s.(sessions := Delete(s.sessions, {sid}))
    case OperatorCancel => OnOperatorCancel(s)
    case OperatorRetry(confirm) => OnOperatorRetry(s, confirm)
    case ApprovalMove(to) => OnApprovalMove(s, to)
    case Evaluate(w) => OnEvaluate(s, w)
    case Admit(w, eligible) => OnAdmit(s, w, eligible)
    case Dispatch(w, pick) => OnDispatch(s, w, pick)
    case PipelineMove(w, to, flagged) => OnPipelineMove(s, w, to, flagged)
    case PipelineFail(w) => OnPipelineFail(s, w)
    case Enter(w, granted) => OnEnter(s, w, granted)
    case SettleStep(w, got) => OnSettleStep(s, w, got)
    case SettleDeleted(w, answer) => OnSettleDeleted(s, w, answer)
    case SettleCommit(w) => OnSettleCommit(s, w)
    case Insert(w, h, b) => OnInsert(s, w, h, b)
    case Build(w, ok) => OnBuild(s, w, ok)
    case SendPost(w, posted, sid) => OnSendPost(s, w, posted, sid)
    case Attach(w) => OnAttach(s, w)
    case DeleteOrphan(w, answer) => OnDeleteOrphan(s, w, answer)
    case RecordRefusal(w) => OnRecordRefusal(s, w)
    case RecordUnknown(w) => OnRecordUnknown(s, w)
    case StartReconcile(w) => OnStartReconcile(s, w)
    case Search(w, found) => OnSearch(s, w, found)
    case BlockUnmatched(w) => OnBlockUnmatched(s, w)
    case PollCheck(w, expired) => OnPollCheck(s, w, expired)
    case PollAnswer(w, got) => OnPollAnswer(s, w, got)
    case RecordLost(w) => OnRecordLost(s, w)
    case SettleOutcome(w) => OnSettleOutcome(s, w)
    case Finish(w, valid) => OnFinish(s, w, valid)
    case TimeoutGet(w, got) => OnTimeoutGet(s, w, got)
    case TimeoutDelete(w, answer) => OnTimeoutDelete(s, w, answer)
    case Park(w) => OnPark(s, w)
    case SweepTag(w, sweep) => OnSweepTag(s, w, sweep)
    case CloseOut(w, expired) => OnCloseOut(s, w, expired)
    case TerminateOne(w, answer, sweep) => OnTerminateOne(s, w, answer, sweep)
    case TerminateCommit(w) => OnTerminateCommit(s, w)
    case Reread(w, got) => OnReread(s, w, got)
    case Ingest(w) => OnIngest(s, w)
    case Abandon(w) => OnAbandon(s, w)
  }

  function Next(s: World, e: Event): World {
    var t := Effect(s, e);
    if Waits(s, t, e) then s else t
  }

  function Run(s: World, es: seq<Event>): World {
    if es == [] then s else Next(Run(s, es[..|es| - 1]), es[|es| - 1])
  }

  /** The world after the first `n` events. */
  function At(config: Config, es: seq<Event>, n: nat): World
    requires n <= |es|
  {
    Run(Initial(config), es[..n])
  }

  lemma AtNext(config: Config, es: seq<Event>, n: nat)
    requires n < |es|
    ensures At(config, es, n + 1) == Next(At(config, es, n), es[n])
  {
    hide Next;
    assert es[..n + 1][..n] == es[..n];
  }
}
