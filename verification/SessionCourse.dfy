/** What decides the course of a case: who is admitted, when a new attempt may be made, what a create
    that was answered, refused or lost leads to, what the last reading before a termination decides,
    and what an operator's requests do. The laws are about any world and any event. */
module SessionCourse {
  import opened Wrappers
  import opened Tags
  import opened SessionModel
  import opened SessionProtocol
  import opened SessionEnds
  import L = Lifecycle
  import S = Status

  /** What the steps below do, once they go. */
  lemma EffectIs(s: World, e: Event)
    ensures e.Admit? ==> Effect(s, e) == OnAdmit(s, e.w, e.eligible) && Actor(e) == Some(e.w)
    ensures e.Enter? ==> Effect(s, e) == OnEnter(s, e.w, e.granted) && Actor(e) == Some(e.w)
    ensures e.Attach? ==> Effect(s, e) == OnAttach(s, e.w) && Actor(e) == Some(e.w)
    ensures e.RecordUnknown? ==> Effect(s, e) == OnRecordUnknown(s, e.w) && Actor(e) == Some(e.w)
  {
    hide OnAdmit, OnEnter, OnAttach, OnRecordUnknown;
  }

  lemma ReadingIs(s: World, e: Event)
    ensures e.PollCheck? ==> Effect(s, e) == OnPollCheck(s, e.w, e.expired) && Actor(e) == Some(e.w)
    ensures e.TimeoutGet? ==> Effect(s, e) == OnTimeoutGet(s, e.w, e.got) && Actor(e) == Some(e.w)
  {
    hide OnPollCheck, OnTimeoutGet;
  }

  lemma RequestIs(s: World, vouched: bool)
    ensures Effect(s, OperatorRetry(vouched)) == OnOperatorRetry(s, vouched) && Effect(s, OperatorCancel) == OnOperatorCancel(s)
  {
    hide OnOperatorRetry, OnOperatorCancel;
  }

  // ------------------------------------------------------------------ admission and allocation

  /** An evaluated case goes on to its triage exactly if it is eligible, and is rejected by policy
      exactly if it is not; either way only from where the process holds it. */
  lemma AdmitsExactly(s: World, w: nat, eligible: bool)
    requires w in s.processes && s.processes[w].pc == Evaluated
    ensures
      var t := Next(s, Admit(w, eligible));
      var to := if eligible then L.TriageCreateIntent else L.PolicyRejected;
      && t.attempts == s.attempts
      && t.state == (if Commits(s, w, to) then to else s.state)
      && (Commits(s, w, to) ==> if eligible then w in t.processes && t.processes[w].pc == Entered(Triage) else w !in t.processes)
  {
    hide Effect, HoldsCase, LockedOut, Waits, L.Allowed;
    var e := Admit(w, eligible);
    EffectIs(s, e);
    NotHolding(s, w);
    WaitsExactly(s, Effect(s, e), e, w) by { AdmitLocksNothing(s, w, eligible); }
    AdmissionMoves();
  }

  lemma NotHolding(s: World, w: nat)
    requires w in s.processes && !s.processes[w].pc.Settling? && !s.processes[w].pc.SettleDelete? && !s.processes[w].pc.Rereading?
    ensures !HoldsCase(s.processes[w])
  {}

  lemma AdmitLocksNothing(s: World, w: nat, eligible: bool)
    requires w in s.processes && s.processes[w].pc == Evaluated
    ensures var t := OnAdmit(s, w, eligible); w in t.processes ==> !HoldsCase(t.processes[w])
  {
    hide CanMove;
  }

  lemma AdmissionMoves()
    ensures !L.Allowed(L.TriageCreateIntent, L.TriageCreateIntent, false) && !L.Allowed(L.PolicyRejected, L.PolicyRejected, false)
  {}

  /** A job starts to make a new attempt exactly if none of its kind is active, a slot is granted, the
      next ordinal is within the cap, and nobody else keeps the case's row locked. */
  lemma AllocatesExactly(s: World, w: nat, granted: bool, kind: Kind)
    requires w in s.processes && s.processes[w].pc == Entered(kind)
    ensures
      var t := Next(s, Enter(w, granted));
      w in t.processes && t.processes[w].pc.Settling? <==>
      && granted && (forall a <- s.attempts :: !ActiveOf(a, kind))
      && NextOrdinal(s.attempts, kind) <= s.config.maxAttempts && !LockedOut(s, w)
  {
    hide Effect, Waits, L.Allowed, FailJob, MoveOn, NextOrdinal, NewestActive, Select;
    var e := Enter(w, granted);
    EffectIs(s, e);
    EnterWaits(s, w, granted, kind);
    MoveOnSettles(s, w, kind);
    var found := NewestActive(s.attempts, kind, |s.attempts|);
    if found.None? {
      forall a <- s.attempts ensures !ActiveOf(a, kind) {
        var i :| 0 <= i < |s.attempts| && s.attempts[i] == a;
      }
    } else {
      assert s.attempts[found.value] in s.attempts;
    }
  }

  lemma EnterWaits(s: World, w: nat, granted: bool, kind: Kind)
    requires w in s.processes && s.processes[w].pc == Entered(kind)
    ensures
      var t := OnEnter(s, w, granted);
      w in t.processes && t.processes[w].pc.Settling? ==> (Waits(s, t, Enter(w, granted)) <==> LockedOut(s, w))
  {
    hide Effect, FailJob, MoveOn, NextOrdinal, NewestActive, Select;
    MoveOnSettles(s, w, kind);
  }

  lemma MoveOnSettles(s: World, w: nat, kind: Kind)
    requires w in s.processes
    ensures
      forall i: nat ::
        var t := MoveOn(s, s, w, PhaseOf(kind).running, Polling(i));
        w in t.processes ==> !t.processes[w].pc.Settling?
  {
    hide CanMove;
  }

  /** A worker that is free takes the case up exactly if it can go on without a human: in a state of its
      triage that is on its way, anywhere in its remediation, or blocked with a session left to read. */
  lemma ClaimsExactly(s: World, w: nat)
    requires w !in s.processes
    ensures
      var t := Next(s, ClaimCase(w));
      var goesOn :=
        || s.state in {L.Received, L.TriageCreateIntent, L.Triaging, L.ReconcilingCreate, L.TerminationPending} || L.InRemediation(s.state)
        || (s.state == L.HumanBlocked && exists a <- s.attempts :: Retained(a) && a.reason != NoOutput(true));
      if goesOn then
        && w in t.processes && t.processes[w] == Process(Dispatching, s.state, s.runs, Some(w)) && t.claimedBy == Some(w)
        && t.attempts == s.attempts && t.state == s.state
      else t == s
  {
    hide HoldsCase, L.InRemediation;
    assert !HoldsCase(Process(Dispatching, s.state, s.runs, Some(w))) by { FreshHoldsNothing(s.state, s.runs, w); }
    if i :| 0 <= i < |s.attempts| && Retained(s.attempts[i]) && s.attempts[i].reason != NoOutput(true) { assert s.attempts[i] in s.attempts; }
    if a :| a in s.attempts && Retained(a) && a.reason != NoOutput(true) {
      var i :| 0 <= i < |s.attempts| && s.attempts[i] == a;
    }
  }

  lemma FreshHoldsNothing(state: L.CaseState, run: nat, w: nat)
    ensures !HoldsCase(Process(Dispatching, state, run, Some(w)))
  {}

  /** What the job of a claimed case turns to: an attempt of its triage, or of its remediation; the
      retained sessions of a blocked case; or, when the case is to be terminated, an attempt that is, and
      with no such attempt everything that may own a session. */
  lemma DispatchDecides(s: World, w: nat, pick: nat)
    requires w in s.processes && s.processes[w].pc == Dispatching && s.processes[w].fence.Some?
    ensures TurnsTo(s, Next(s, Dispatch(w, pick)), w, pick)
  {
    hide Effect, Waits, HoldsCase, LockedOut, OnDispatch, TurnsTo;
    var e := Dispatch(w, pick);
    StartIs(s, e);
    NotHolding(s, w);
    DispatchHoldsNothing(s, w, pick);
    DispatchTurns(s, w, pick);
    WaitsExactly(s, Effect(s, e), e, w);
  }

  ghost predicate TurnsTo(s: World, t: World, w: nat, pick: nat)
    requires w in s.processes
  {
    var mem := s.processes[w].mem;
    var pending := pick < |s.attempts| && s.attempts[pick].status == TerminationPending;
    var nonePending := forall a <- s.attempts :: a.status != TerminationPending;
    && t.attempts == s.attempts && t.state == s.state && t.sessions == s.sessions
    && (mem in {L.TriageCreateIntent, L.Triaging} ==> w in t.processes && t.processes[w].pc == Entered(Triage))
    && (mem in {L.RemediationCreateIntent, L.RemediationReconcilingCreate, L.Remediating} ==>
          w in t.processes && t.processes[w].pc == Entered(Remediation))
    && (mem == L.HumanBlocked ==> w in t.processes && t.processes[w].pc.Rereading? && Lists(s, t.processes[w].pc.todo, Retained))
    && (mem in {L.TerminationPending, L.RemediationTerminationPending} && nonePending ==>
          w in t.processes && t.processes[w].pc.Terminating? && Lists(s, t.processes[w].pc.todo, Owning))
    && (mem in {L.TerminationPending, L.RemediationTerminationPending} && pending ==>
          w in t.processes &&
          t.processes[w].pc == Entered(if mem == L.TerminationPending then s.attempts[pick].kind else Remediation))
  }

  lemma DispatchTurns(s: World, w: nat, pick: nat)
    requires w in s.processes && s.processes[w].pc == Dispatching
    ensures TurnsTo(s, OnDispatch(s, w, pick), w, pick)
    ensures OnDispatch(s, w, pick).state == s.state
  {
    hide Select, NewestActiveIsTriage, Lists, TerminationEntry, RetainedRows;
    RetainedAreListed(s);
    TerminationTurns(s, w, pick, false);
    TerminationTurns(s, w, pick, true);
  }

  lemma RetainedAreListed(s: World)
    ensures Lists(s, RetainedRows(s.attempts), Retained)
  {
    hide Select;
  }

  lemma TerminationTurns(s: World, w: nat, pick: nat, remediation: bool)
    requires w in s.processes
    ensures
      var t := TerminationEntry(s, w, pick, remediation);
      var pending := pick < |s.attempts| && s.attempts[pick].status == TerminationPending;
      && t.attempts == s.attempts && t.state == s.state && t.sessions == s.sessions && w in t.processes
      && ((forall a <- s.attempts :: a.status != TerminationPending) ==>
            t.processes[w].pc.Terminating? && Lists(s, t.processes[w].pc.todo, Owning))
      && (pending ==> t.processes[w].pc == Entered(if remediation then Remediation else s.attempts[pick].kind))
  {
    hide Select, Owning;
    if forall a <- s.attempts :: a.status != TerminationPending {
      assert forall i | 0 <= i < |s.attempts| :: s.attempts[i] in s.attempts && !SessionProtocol.Pending(s.attempts[i]);
    }
  }

  /** Exactly the attempts that satisfy `p`, newest first. */
  ghost predicate Lists(s: World, rows: seq<nat>, p: Attempt -> bool) {
    && (forall i :: i in rows <==> 0 <= i < |s.attempts| && p(s.attempts[i]))
    && (forall j, k | 0 <= j < k < |rows| :: rows[k] < rows[j])
  }

  lemma DispatchHoldsNothing(s: World, w: nat, pick: nat)
    requires w in s.processes && s.processes[w].fence.Some? && s.processes[w].pc == Dispatching
    ensures var t := OnDispatch(s, w, pick); w in t.processes ==> !HoldsCase(t.processes[w])
  {
    hide Select, NewestActiveIsTriage;
  }

  /** A job with an active attempt takes up the newest one where it was left: it handles an attempt
      under termination, by its session or else by its tag, looks for the session of one whose create is
      in doubt, and polls any other, taking the case back to where the attempt runs. */
  lemma ResumesExactly(s: World, w: nat, granted: bool, kind: Kind, i: nat)
    requires w in s.processes && s.processes[w].pc == Entered(kind) && NewestActive(s.attempts, kind, |s.attempts|) == Some(i)
    ensures
      var t := Next(s, Enter(w, granted));
      var a := s.attempts[i];
      var phase := PhaseOf(kind);
      var goesBack := a.status != TerminationPending && a.session.Some? && s.processes[w].mem in {phase.intent, phase.reconciling};
      && t.attempts == s.attempts && t.sessions == s.sessions
      && t.state == (if goesBack && Commits(s, w, phase.running) then phase.running else s.state)
      && (!goesBack || Commits(s, w, phase.running) ==>
            && w in t.processes
            && t.processes[w].pc ==
               if a.status == TerminationPending then if a.session.Some? then Handling(i) else Sweeping(i)
               else if a.session.Some? then Polling(i) else BeginReconcile(i))
  {
    hide Effect, Waits, HoldsCase, LockedOut, L.Allowed, NewestActive;
    var e := Enter(w, granted);
    EffectIs(s, e);
    NotHolding(s, w);
    ResumingHoldsNothing(s.processes[w], i);
    RunningIsLeft(kind);
    WaitsExactly(s, Effect(s, e), e, w);
  }

  lemma ResumingHoldsNothing(p: Process, i: nat)
    ensures forall mem :: !HoldsCase(p.(pc := Polling(i), mem := mem))
    ensures !HoldsCase(p.(pc := Handling(i))) && !HoldsCase(p.(pc := Sweeping(i))) && !HoldsCase(p.(pc := Polling(i)))
    ensures !HoldsCase(p.(pc := BeginReconcile(i))) && !HoldsCase(p.(pc := Abandoning))
  {}

  // ------------------------------------------------------------------ what became of the create

  /** The creator binds its session exactly if it can take the case to where the attempt runs; while the
      row is locked it waits, and otherwise the attempt is cancelled and the session is an orphan. */
  lemma AttachesExactly(s: World, w: nat, i: nat, sid: nat, created: CreateState)
    requires IsAt(s, w, Attaching(i, sid, created), i)
    ensures
      var t := Next(s, Attach(w));
      var running := PhaseOf(s.attempts[i].kind).running;
      var bound := s.attempts[i].(createState := created, session := Some(sid));
      if Commits(s, w, running) then
        && t.attempts == s.attempts[i := bound.(status := Running, reason := NoReason)] && t.state == running
        && w in t.processes && t.processes[w].pc == Polling(i)
      else if Held(s, w) && L.Allowed(s.state, running, false) then t == s
      else
        && t.attempts == s.attempts[i := bound.(status := Cancelled, finished := true)] && t.state == s.state
        && w in t.processes && t.processes[w].pc == Orphaned(sid)
  {
    hide Effect, HoldsCase, LockedOut, Waits, L.Allowed;
    var e := Attach(w);
    EffectIs(s, e);
    NotHolding(s, w);
    PointsHoldNothing(s.processes[w], i, sid);
    RunningIsLeft(s.attempts[i].kind);
    WaitsExactly(s, Effect(s, e), e, w);
  }

  lemma PointsHoldNothing(p: Process, i: nat, sid: nat)
    ensures forall mem :: !HoldsCase(p.(pc := Polling(i), mem := mem))
    ensures !HoldsCase(p.(pc := Orphaned(sid))) && !HoldsCase(p.(pc := BeginReconcile(i))) && !HoldsCase(p.(pc := Abandoning))
    ensures forall mem :: !HoldsCase(p.(pc := BeginReconcile(i), mem := mem))
  {}

  lemma RunningIsLeft(kind: Kind)
    ensures !L.Allowed(PhaseOf(kind).running, PhaseOf(kind).running, false)
    ensures !L.Allowed(PhaseOf(kind).reconciling, PhaseOf(kind).reconciling, false)
  {}

  /** A create whose answer was lost is to be reconciled, never taken for a failure. */
  lemma UnknownIsReconciled(s: World, w: nat, i: nat)
    requires IsAt(s, w, OutcomeUnknown(i), i)
    ensures
      var t := Next(s, RecordUnknown(w));
      var a := s.attempts[i];
      if Commits(s, w, PhaseOf(a.kind).reconciling) then
        && t.attempts == s.attempts[i := a.(createState := Uncertain, status := Reconciling, reason := OtherReason)]
        && t.state == PhaseOf(a.kind).reconciling && w in t.processes && t.processes[w].pc == BeginReconcile(i)
      else t.attempts == s.attempts && t.state == s.state
  {
    hide Effect, HoldsCase, LockedOut, Waits, L.Allowed;
    var e := RecordUnknown(w);
    EffectIs(s, e);
    NotHolding(s, w);
    PointsHoldNothing(s.processes[w], i, 0);
    RunningIsLeft(s.attempts[i].kind);
    WaitsExactly(s, Effect(s, e), e, w);
  }

  /** A search for the tag binds the one session it finds, and leaves any other answer to a human. */
  lemma SearchDecides(s: World, w: nat, found: SearchAnswer, i: nat)
    requires IsAt(s, w, Searching(i), i)
    requires found.OneMatch? ==> found.sid in s.sessions && s.sessions[found.sid].tag == s.attempts[i].key
    ensures
      var t := Next(s, Search(w, found));
      && t.attempts == s.attempts && t.state == s.state && w in t.processes
      && t.processes[w].pc == if found.OneMatch? then Attaching(i, found.sid, Reconciled) else Unmatched(i)
  {
    hide Effect, Waits, HoldsCase, LockedOut;
    var e := Search(w, found);
    WayIs(s, e);
    NotHolding(s, w);
    SearchHoldsNothing(s.processes[w], i);
    WaitsExactly(s, Effect(s, e), e, w);
  }

  lemma WayIs(s: World, e: Event)
    ensures e.Search? ==> Effect(s, e) == OnSearch(s, e.w, e.found) && Actor(e) == Some(e.w)
    ensures e.Park? ==> Effect(s, e) == OnPark(s, e.w) && Actor(e) == Some(e.w)
    ensures e.Abandon? ==> Effect(s, e) == OnAbandon(s, e.w) && Actor(e) == Some(e.w)
  {
    hide OnSearch, OnPark, OnAbandon;
  }

  lemma SearchHoldsNothing(p: Process, i: nat)
    ensures forall sid :: !HoldsCase(p.(pc := Attaching(i, sid, Reconciled)))
    ensures !HoldsCase(p.(pc := Unmatched(i)))
  {}

  /** A job that has lost its case cancels exactly the attempts that were never sent. */
  lemma AbandonsExactly(s: World, w: nat)
    requires w in s.processes && s.processes[w].pc == Abandoning
    ensures
      var t := Next(s, Abandon(w));
      && w !in t.processes && t.state == s.state && |t.attempts| == |s.attempts|
      && forall i | 0 <= i < |s.attempts| ::
           t.attempts[i] == if Active(s.attempts[i]) && !s.attempts[i].sent then s.attempts[i].(status := Cancelled, finished := true)
                            else s.attempts[i]
  {
    hide Effect, Waits, HoldsCase, LockedOut, Active;
    var e := Abandon(w);
    WayIs(s, e);
    NotHolding(s, w);
    WaitsExactly(s, Effect(s, e), e, w);
  }

  /** The search for the session starts with the attempt marked as being reconciled, and with the case
      taken from the intent to create to its reconciliation, if it is still there. */
  lemma ReconciliationStarts(s: World, w: nat, i: nat)
    requires IsAt(s, w, BeginReconcile(i), i)
    ensures
      var t := Next(s, StartReconcile(w));
      var a := s.attempts[i];
      var phase := PhaseOf(a.kind);
      var doubted := a.createState == CreateState.Pending;
      var marked := a.(status := Reconciling, createState := if doubted then Uncertain else a.createState,
                       reason := if doubted then OtherReason else a.reason);
      if s.processes[w].mem == phase.intent && !Commits(s, w, phase.reconciling) then t.attempts == s.attempts && t.state == s.state
      else
        && t.attempts == s.attempts[i := marked] && w in t.processes && t.processes[w].pc == Searching(i)
        && t.state == if s.processes[w].mem == phase.intent then phase.reconciling else s.state
  {
    hide Effect, Waits, HoldsCase, LockedOut, L.Allowed;
    var e := StartReconcile(w);
    StartIs(s, e);
    NotHolding(s, w);
    StartHoldsNothing(s.processes[w], i);
    RunningIsLeft(s.attempts[i].kind);
    WaitsExactly(s, Effect(s, e), e, w);
  }

  lemma StartIs(s: World, e: Event)
    ensures e.StartReconcile? ==> Effect(s, e) == OnStartReconcile(s, e.w) && Actor(e) == Some(e.w)
    ensures e.SettleOutcome? ==> Effect(s, e) == OnSettleOutcome(s, e.w) && Actor(e) == Some(e.w)
    ensures e.SweepTag? ==> Effect(s, e) == OnSweepTag(s, e.w, e.sweep) && Actor(e) == Some(e.w)
    ensures e.Dispatch? ==> Effect(s, e) == OnDispatch(s, e.w, e.pick) && Actor(e) == Some(e.w)
  {
    hide OnStartReconcile, OnSettleOutcome, OnSweepTag, OnDispatch;
  }

  lemma StartHoldsNothing(p: Process, i: nat)
    ensures forall mem :: !HoldsCase(p.(pc := Searching(i), mem := mem))
    ensures !HoldsCase(p.(pc := Searching(i))) && !HoldsCase(p.(pc := Abandoning))
    ensures !HoldsCase(p.(pc := Finishing(i))) && !HoldsCase(p.(pc := Closing(i)))
  {}

  // ------------------------------------------------------------------ polling and the last reading

  /** Before each reading the case is read again: a termination that somebody asked for is noted on the
      attempt and handled, a deadline that has passed is handled, and otherwise the session is read. */
  lemma ChecksBeforeReading(s: World, w: nat, expired: bool, i: nat)
    requires IsAt(s, w, Polling(i), i)
    ensures
      var t := Next(s, PollCheck(w, expired));
      var asked := s.state in {L.TerminationPending, L.RemediationTerminationPending};
      && t.state == s.state
      && t.attempts == (if asked then s.attempts[i := s.attempts[i].(status := TerminationPending, reason := CancelRequested)] else s.attempts)
      && w in t.processes && t.processes[w].mem == s.state
      && t.processes[w].pc == if asked || expired then Handling(i) else PollGet(i)
  {
    hide Effect, Waits, HoldsCase, LockedOut;
    var e := PollCheck(w, expired);
    ReadingIs(s, e);
    NotHolding(s, w);
    CheckHoldsNothing(s.processes[w], i);
    WaitsExactly(s, Effect(s, e), e, w);
    assert s.attempts[i := s.attempts[i]] == s.attempts;
  }

  lemma CheckHoldsNothing(p: Process, i: nat)
    ensures forall mem :: !HoldsCase(p.(pc := Handling(i), mem := mem)) && !HoldsCase(p.(pc := PollGet(i), mem := mem))
  {}

  /** The reading shows how the session ended, or that it waits for somebody. */
  predicate Conclusive(got: GetAnswer) { got.Snapshot? && got.disposition in {S.Finished, S.WaitingForHuman, S.Failed} }

  /** The last reading before a termination decides: what it shows is settled as if it had been polled,
      except that a failure only closes an attempt that is being terminated anyway; a session that is
      gone, or has ended, needs no DELETE; and only a session that may still work is deleted. */
  lemma LastReadingDecides(s: World, w: nat, got: GetAnswer, i: nat)
    requires IsAt(s, w, Handling(i), i) && KnowsSession(s, i, got)
    ensures
      var t := Next(s, TimeoutGet(w, got));
      var a := s.attempts[i];
      var pending := s.processes[w].mem == PhaseOf(a.kind).terminationPending;
      var settles := Conclusive(got) && !(pending && got.disposition == S.Failed);
      var ended := got.GetNotFound? || (got.Snapshot? && !settles && (Conclusive(got) || got.remoteTerminal));
      && t.state == s.state && t.sessions == s.sessions && w in t.processes
      && t.attempts == (if settles then s.attempts[i := a.(status := Running)] else s.attempts)
      && t.processes[w].pc == if settles then Settled(i, got.disposition, got.output) else if ended then Closing(i) else Deleting(i)
  {
    hide Effect, Waits, HoldsCase, LockedOut;
    var e := TimeoutGet(w, got);
    ReadingIs(s, e);
    NotHolding(s, w);
    ReadingHoldsNothing(s.processes[w], i);
    WaitsExactly(s, Effect(s, e), e, w);
  }

  lemma ReadingHoldsNothing(p: Process, i: nat)
    ensures !HoldsCase(p.(pc := Closing(i))) && !HoldsCase(p.(pc := Deleting(i)))
    ensures forall d, output :: !HoldsCase(p.(pc := Settled(i, d, output)))
  {}

  /** What was read as finished is taken over as it was read, with its output or without, and then
      validated. */
  lemma FinishedIsTakenOver(s: World, w: nat, i: nat, output: bool)
    requires IsAt(s, w, Settled(i, S.Finished, output), i)
    ensures
      var t := Next(s, SettleOutcome(w));
      && t.attempts == s.attempts[i := s.attempts[i].(output := output, finished := true)] && t.state == s.state
      && w in t.processes && t.processes[w].pc == Finishing(i)
  {
    hide Effect, Waits, HoldsCase, LockedOut;
    var e := SettleOutcome(w);
    StartIs(s, e);
    NotHolding(s, w);
    StartHoldsNothing(s.processes[w], i);
    WaitsExactly(s, Effect(s, e), e, w);
  }

  /** An attempt that is terminated without a known session is closed only once the sessions that carry
      its tag were found and deleted; a sweep that fails is noted, and the termination stays pending. */
  lemma SweepDecides(s: World, w: nat, sweep: SweepAnswer, i: nat)
    requires IsAt(s, w, Sweeping(i), i) && TruthfulSweep(s, s.attempts[i].key, sweep)
    ensures
      var t := Next(s, SweepTag(w, sweep));
      && t.state == s.state
      && if sweep.Swept? then t.attempts == s.attempts && w in t.processes && t.processes[w].pc == Closing(i)
         else t.attempts == s.attempts[i := s.attempts[i].(reason := OtherReason)] && w !in t.processes
  {
    hide Effect, Waits, HoldsCase, LockedOut, TruthfulSweep;
    var e := SweepTag(w, sweep);
    StartIs(s, e);
    NotHolding(s, w);
    StartHoldsNothing(s.processes[w], i);
    WaitsExactly(s, Effect(s, e), e, w);
  }

  /** A DELETE that failed parks the attempt, and the case with it: the termination stays pending, and
      what had asked for it - a cancel, or a failing job - is not forgotten. */
  lemma ParksExactly(s: World, w: nat, i: nat)
    requires IsAt(s, w, DeleteFailed(i), i)
    ensures
      var t := Next(s, Park(w));
      var a := s.attempts[i];
      var pending := PhaseOf(a.kind).terminationPending;
      var parked := a.(status := TerminationPending, reason := if a.reason in {CancelRequested, WorkerError} then a.reason else OtherReason);
      if s.processes[w].mem == pending then t.attempts == s.attempts[i := parked] && t.state == s.state && w !in t.processes
      else if Commits(s, w, pending) then t.attempts == s.attempts[i := parked] && t.state == pending && w !in t.processes
      else t.attempts == s.attempts && t.state == s.state
  {
    hide Effect, Waits, HoldsCase, LockedOut, L.Allowed;
    var e := Park(w);
    WayIs(s, e);
    NotHolding(s, w);
    LostLocksNothing(s, w);
    WaitsExactly(s, Effect(s, e), e, w);
  }

  // ------------------------------------------------------------------ operator

  predicate SomebodyHoldsCase(s: World) { exists v <- s.processes :: HoldsCase(s.processes[v]) }

  /** An attempt owns, or may own, a session that nobody has closed out. */
  predicate MayRun(s: World) {
    s.state in {L.Triaging, L.Remediating} || exists i | 0 <= i < |s.attempts| :: Owning(s.attempts[i]) && s.attempts[i].sent
  }

  /** An operator's cancel waits for the termination of whatever may run, and closes the case at once
      only when nothing may and it is not closed yet; where the table has no such edge it does nothing. */
  lemma CancelLeadsExactly(s: World)
    ensures
      var phase := L.PhaseForState(s.state);
      var to := if MayRun(s) then phase.terminationPending else phase.cancelled;
      var moves := (MayRun(s) || !L.Terminal(s.state)) && L.Allowed(s.state, to, false) && !SomebodyHoldsCase(s);
      Next(s, OperatorCancel) == s.(state := if moves then to else s.state)
  {
    hide Effect, HoldsCase, L.Allowed;
    RequestIs(s, false);
    RequestWaits(s, Effect(s, OperatorCancel), OperatorCancel);
    if L.Terminal(s.state) { ClosedForGood(s.state); }
  }

  lemma RequestWaits(s: World, t: World, e: Event)
    requires Actor(e).None?
    ensures Waits(s, t, e) <==> t.state != s.state && SomebodyHoldsCase(s)
  {
    hide HoldsCase;
  }

  lemma ClosedForGood(state: L.CaseState)
    requires L.Terminal(state)
    ensures !L.Allowed(state, L.Cancelled, false)
  {}

  /** Somebody still has to vouch for the create of the attempt. */
  predicate Vouchable(a: Attempt) {
    a.createState == Unresolved && a.status in {Blocked, Reconciling} && a.reason != Acknowledged
  }

  /** A replacement for a triage attempt that waits for a human needs its session re-read: read without
      output, or not found. */
  predicate Reread(a: Attempt) { a.reason.NoOutput? && !Vouchable(a) }

  /** An operator's retry is accepted exactly if every unresolved create is vouched for, nobody keeps the
      row locked, and: in the remediation phase, the case may be retried from its state, nothing of
      the kind is active and the cap leaves another attempt; outside, the table lets the case start
      again, every retained session of a blocked case has been re-read, and no kind is at its cap. */
  predicate RetryAccepted(s: World, vouched: bool) { Retryable(s, vouched) && !SomebodyHoldsCase(s) }

  predicate Retryable(s: World, vouched: bool) {
    && (vouched || forall a <- s.attempts :: !Vouchable(a))
    && if L.InRemediation(s.state) then
         && s.state in {L.RemediationFailed, L.RemediationTimedOut, L.RemediationHumanBlocked}
         && (forall a <- s.attempts :: !ActiveOf(a, Remediation))
         && CountOf(s.attempts, Remediation) < s.config.maxAttempts
       else
         && s.state in {L.Failed, L.TimedOut, L.HumanBlocked}
         && (s.state == L.HumanBlocked ==> forall a <- s.attempts :: Retained(a) ==> Reread(a))
         && (forall kind :: CountOf(s.attempts, kind) == 0 || CountOf(s.attempts, kind) < s.config.maxAttempts)
  }

  lemma RetryDoors(state: L.CaseState)
    ensures !L.InRemediation(state) ==> (L.Allowed(state, L.Received, false) <==> state in {L.Failed, L.TimedOut, L.HumanBlocked})
    ensures state in L.REMEDIATION_RETRYABLE_STATES ==> L.Allowed(state, L.RemediationApproved, false)
  {}

  /** It then acknowledges what was vouched for and sends the case back to its start, or to where a
      remediation starts; and otherwise it changes nothing. */
  lemma RetryExactly(s: World, vouched: bool)
    ensures
      var t := Next(s, OperatorRetry(vouched));
      if RetryAccepted(s, vouched) then
        && t == s.(attempts := t.attempts, state := t.state)
        && t.state == (if L.InRemediation(s.state) then L.RemediationApproved else L.Received)
        && |t.attempts| == |s.attempts|
        && forall i | 0 <= i < |s.attempts| ::
             t.attempts[i] == if Vouchable(s.attempts[i]) then s.attempts[i].(reason := Acknowledged) else s.attempts[i]
      else t == s
  {
    hide Effect, HoldsCase, SomebodyHoldsCase, Retryable, OnOperatorRetry;
    var e := OperatorRetry(vouched);
    RequestIs(s, vouched);
    RequestWaits(s, Effect(s, e), e);
    if Retryable(s, vouched) { RetryGoes(s, vouched); } else { RetryIsRefused(s, vouched); }
  }

  /** The retry, apart from the lock. */
  lemma RetryGoes(s: World, vouched: bool)
    requires Retryable(s, vouched)
    ensures
      var t := OnOperatorRetry(s, vouched);
      && t == s.(attempts := t.attempts, state := t.state) && t.state != s.state
      && t.state == (if L.InRemediation(s.state) then L.RemediationApproved else L.Received)
      && |t.attempts| == |s.attempts|
      && forall i | 0 <= i < |s.attempts| ::
           t.attempts[i] == if Vouchable(s.attempts[i]) then s.attempts[i].(reason := Acknowledged) else s.attempts[i]
  {
    hide L.Allowed, L.InRemediation, Vouchable, Retained, ActiveOf;
    RetryDoors(s.state);
    Unvouched(s.attempts);
    StillUnread(s.attempts);
    NoneActive(s.attempts);
  }

  lemma RetryIsRefused(s: World, vouched: bool)
    requires !Retryable(s, vouched)
    ensures OnOperatorRetry(s, vouched) == s
  {
    hide L.Allowed, L.InRemediation, Vouchable, Retained, ActiveOf;
    RetryDoors(s.state);
    Unvouched(s.attempts);
    StillUnread(s.attempts);
    NoneActive(s.attempts);
  }

  lemma Unvouched(attempts: seq<Attempt>)
    ensures UnackedRows(attempts) == {} <==> forall a <- attempts :: !Vouchable(a)
    ensures forall i | 0 <= i < |attempts| :: i in UnackedRows(attempts) <==> Vouchable(attempts[i])
  {
    if UnackedRows(attempts) == {} {
      forall a <- attempts ensures !Vouchable(a) {
        var i :| 0 <= i < |attempts| && attempts[i] == a;
        assert i !in UnackedRows(attempts);
      }
    }
    if i :| i in UnackedRows(attempts) { assert attempts[i] in attempts; }
  }

  lemma StillUnread(attempts: seq<Attempt>)
    ensures
      var acked := Rewrite(attempts, UnackedRows(attempts), Acked);
      (exists i | 0 <= i < |acked| :: Unreconciled(acked[i])) <==> !(forall a <- attempts :: Retained(a) ==> Reread(a))
  {
    var acked := Rewrite(attempts, UnackedRows(attempts), Acked);
    forall i | 0 <= i < |attempts| ensures Unreconciled(acked[i]) <==> Retained(attempts[i]) && !Reread(attempts[i]) {}
    if a :| a in attempts && Retained(a) && !Reread(a) {
      var i :| 0 <= i < |attempts| && attempts[i] == a;
      assert Unreconciled(acked[i]);
    }
    if i :| 0 <= i < |acked| && Unreconciled(acked[i]) { assert attempts[i] in attempts; }
  }

  lemma NoneActive(attempts: seq<Attempt>)
    ensures (exists i | 0 <= i < |attempts| :: ActiveOf(attempts[i], Remediation)) <==> !(forall a <- attempts :: !ActiveOf(a, Remediation))
  {
    if a :| a in attempts && ActiveOf(a, Remediation) {
      var i :| 0 <= i < |attempts| && attempts[i] == a;
      assert ActiveOf(attempts[i], Remediation);
    }
    if i :| 0 <= i < |attempts| && ActiveOf(attempts[i], Remediation) { assert attempts[i] in attempts; }
  }

  // ------------------------------------------------------------------ what ends a session

  /** The DELETE that the event reports was accepted for this session: of a session that an earlier
      attempt left behind and that was read without output; of an orphan; after a last reading; or of
      a session that an attempt under termination names, or that carries its tag. */
  predicate Ends(s: World, e: Event, sid: nat) {
    match e
    case RemoteVanishes(x) => x == sid
    case SettleDeleted(w, answer) =>
      && answer.Deleted? && w in s.processes && s.processes[w].pc.SettleDelete? && s.processes[w].pc.todo != []
      && var i := s.processes[w].pc.todo[0]; i < |s.attempts| && s.attempts[i].session == Some(sid)
    case DeleteOrphan(w, answer) => answer.Deleted? && w in s.processes && s.processes[w].pc == Orphaned(sid)
    case TimeoutDelete(w, answer) =>
      && answer.Deleted? && w in s.processes && s.processes[w].pc.Deleting?
      && var i := s.processes[w].pc.attempt; i < |s.attempts| && s.attempts[i].session == Some(sid)
    case SweepTag(w, sweep) =>
      && w in s.processes && s.processes[w].pc.Sweeping?
      && var i := s.processes[w].pc.attempt; i < |s.attempts| && Found(s, i, sweep, sid)
    case TerminateOne(w, answer, sweep) =>
      && w in s.processes && s.processes[w].pc.Terminating? && s.processes[w].pc.todo != []
      && var i := s.processes[w].pc.todo[0];
         && i < |s.attempts|
         && if s.attempts[i].session.Some? then s.attempts[i].session.value == sid && answer.Deleted?
            else s.attempts[i].sent && Found(s, i, sweep, sid)
    case _ => false
  }

  /** A truthful search for the tag of the attempt, whose answer names the session. */
  predicate Found(s: World, i: nat, sweep: SweepAnswer, sid: nat)
    requires i < |s.attempts|
  {
    TruthfulSweep(s, s.attempts[i].key, sweep) && sid in if sweep.Swept? then sweep.matches else sweep.deleted
  }

  /** The steps that can delete. */
  predicate MayDelete(e: Event) { e.SettleDeleted? || e.DeleteOrphan? || e.TimeoutDelete? || e.SweepTag? || e.TerminateOne? }

  predicate Starts(e: Event) { e.ClaimCase? || e.OperatorReconcile? || e.Evaluate? || e.Admit? }

  lemma StartsSpareSessions(s: World, w: nat)
    ensures OnClaim(s, w).sessions == s.sessions
    ensures OnOperatorReconcile(s, w).sessions == s.sessions
    ensures OnEvaluate(s, w).sessions == s.sessions
    ensures forall eligible :: OnAdmit(s, w, eligible).sessions == s.sessions
  {
    hide CanMove, Claimable, RetainedRows;
  }

  lemma StartsSpare(s: World, e: Event)
    requires Starts(e)
    ensures Effect(s, e).sessions == s.sessions
  {
    hide OnClaim, OnOperatorReconcile, OnEvaluate, OnAdmit;
    StartsSpareSessions(s, Actor(e).value);
  }

  predicate Enters(e: Event) { e.Dispatch? || e.PipelineMove? || e.PipelineFail? || e.Enter? }

  lemma EntersSpareSessions(s: World, w: nat)
    ensures forall pick :: OnDispatch(s, w, pick).sessions == s.sessions
    ensures forall to, flagged :: OnPipelineMove(s, w, to, flagged).sessions == s.sessions
    ensures OnPipelineFail(s, w).sessions == s.sessions
    ensures forall granted :: OnEnter(s, w, granted).sessions == s.sessions
  {
    hide CanMove, FailJob, L.Allowed, L.InRemediation, NewestActive, NewestActiveIsTriage, NextOrdinal, RetainedRows, Select;
  }

  lemma EntersSpare(s: World, e: Event)
    requires Enters(e)
    ensures Effect(s, e).sessions == s.sessions
  {
    hide OnDispatch, OnPipelineMove, OnPipelineFail, OnEnter;
    EntersSpareSessions(s, Actor(e).value);
  }

  predicate Creates(e: Event) { e.SettleStep? || e.SettleCommit? || e.Insert? || e.Build? || e.Attach? }

  lemma CreatesSpareSessions(s: World, w: nat)
    ensures forall got :: OnSettleStep(s, w, got).sessions == s.sessions
    ensures OnSettleCommit(s, w).sessions == s.sessions
    ensures forall h, b :: OnInsert(s, w, h, b).sessions == s.sessions
    ensures forall ok :: OnBuild(s, w, ok).sessions == s.sessions
    ensures OnAttach(s, w).sessions == s.sessions
  {
    hide CanMove, FailJob, Insertable, KeyFor, TruthfulGet;
  }

  lemma CreatesSpare(s: World, e: Event)
    requires Creates(e)
    ensures Effect(s, e).sessions == s.sessions
  {
    hide OnSettleStep, OnSettleCommit, OnInsert, OnBuild, OnAttach;
    CreatesSpareSessions(s, Actor(e).value);
  }

  predicate Reconciles(e: Event) { e.RecordRefusal? || e.RecordUnknown? || e.StartReconcile? || e.Search? || e.BlockUnmatched? }

  lemma ReconcilesSpareSessions(s: World, w: nat)
    ensures OnRecordRefusal(s, w).sessions == s.sessions
    ensures OnRecordUnknown(s, w).sessions == s.sessions
    ensures OnStartReconcile(s, w).sessions == s.sessions
    ensures forall found :: OnSearch(s, w, found).sessions == s.sessions
    ensures OnBlockUnmatched(s, w).sessions == s.sessions
  {
    hide CanMove, FailJob;
  }

  lemma ReconcilesSpare(s: World, e: Event)
    requires Reconciles(e)
    ensures Effect(s, e).sessions == s.sessions
  {
    hide OnRecordRefusal, OnRecordUnknown, OnStartReconcile, OnSearch, OnBlockUnmatched;
    ReconcilesSpareSessions(s, Actor(e).value);
  }

  predicate Polls(e: Event) { e.PollCheck? || e.PollAnswer? || e.RecordLost? || e.SettleOutcome? || e.Finish? || e.TimeoutGet? }

  lemma PollsSpareSessions(s: World, w: nat)
    ensures forall expired :: OnPollCheck(s, w, expired).sessions == s.sessions
    ensures forall got :: OnPollAnswer(s, w, got).sessions == s.sessions
    ensures OnRecordLost(s, w).sessions == s.sessions
    ensures OnSettleOutcome(s, w).sessions == s.sessions
    ensures forall valid :: OnFinish(s, w, valid).sessions == s.sessions
    ensures forall got :: OnTimeoutGet(s, w, got).sessions == s.sessions
  {
    hide CanMove, FailJob, L.IsTerminationPending, TruthfulGet;
  }

  lemma PollsSpare(s: World, e: Event)
    requires Polls(e)
    ensures Effect(s, e).sessions == s.sessions
  {
    hide OnPollCheck, OnPollAnswer, OnRecordLost, OnSettleOutcome, OnFinish, OnTimeoutGet;
    PollsSpareSessions(s, Actor(e).value);
  }

  predicate Closes(e: Event) { e.Park? || e.CloseOut? || e.TerminateCommit? || e.Reread? || e.Ingest? || e.Abandon? }

  lemma ClosesSpareSessions(s: World, w: nat)
    ensures OnPark(s, w).sessions == s.sessions
    ensures forall expired :: OnCloseOut(s, w, expired).sessions == s.sessions
    ensures OnTerminateCommit(s, w).sessions == s.sessions
    ensures forall got :: OnReread(s, w, got).sessions == s.sessions
    ensures OnIngest(s, w).sessions == s.sessions
    ensures OnAbandon(s, w).sessions == s.sessions
  {
    hide CanMove, Chosen, TruthfulGet;
  }

  lemma ClosesSpare(s: World, e: Event)
    requires Closes(e)
    ensures Effect(s, e).sessions == s.sessions
  {
    hide OnPark, OnCloseOut, OnTerminateCommit, OnReread, OnIngest, OnAbandon;
    ClosesSpareSessions(s, Actor(e).value);
  }

  lemma RequestsSpareSessions(s: World)
    ensures OnOperatorCancel(s).sessions == s.sessions
    ensures forall vouched :: OnOperatorRetry(s, vouched).sessions == s.sessions
    ensures forall to :: OnApprovalMove(s, to).sessions == s.sessions
  {
    hide L.Allowed, CapReached, CancelTarget;
  }

  lemma RequestsSpare(s: World, e: Event)
    requires e.OperatorCancel? || e.OperatorRetry? || e.ApprovalMove? || e.Crash?
    ensures Effect(s, e).sessions == s.sessions
  {
    hide OnOperatorCancel, OnOperatorRetry, OnApprovalMove;
    RequestsSpareSessions(s);
  }

  lemma OthersSpareSessions(s: World, e: Event)
    requires !MayDelete(e) && !e.RemoteStops? && !e.RemoteVanishes? && !e.SendPost?
    ensures Effect(s, e).sessions == s.sessions
  {
    hide Effect;
    if Starts(e) { StartsSpare(s, e); }
    else if Enters(e) { EntersSpare(s, e); }
    else if Creates(e) { CreatesSpare(s, e); }
    else if Reconciles(e) { ReconcilesSpare(s, e); }
    else if Polls(e) { PollsSpare(s, e); }
    else if Closes(e) { ClosesSpare(s, e); }
    else { RequestsSpare(s, e); }
  }

  // The steps that can delete: what they do to a session, and that they wait for nobody.

  ghost predicate Touches(s: World, t: World, w: nat, sid: nat, ends: bool) {
    && sid in s.sessions && sid in t.sessions
    && t.sessions[sid] == (if ends then s.sessions[sid].(phase := Gone) else s.sessions[sid])
    && t.state == s.state
    && (w in t.processes && HoldsCase(t.processes[w]) ==> w in s.processes && HoldsCase(s.processes[w]))
  }

  lemma SettlingDeletes(s: World, w: nat, answer: DeleteAnswer, sid: nat)
    requires sid in s.sessions
    ensures Touches(s, OnSettleDeleted(s, w, answer), w, sid, Ends(s, SettleDeleted(w, answer), sid)) || answer.DeleteError?
    ensures answer.DeleteError? ==> OnSettleDeleted(s, w, answer).sessions == s.sessions && !Ends(s, SettleDeleted(w, answer), sid)
  {
    hide FailJob;
  }

  lemma OrphanDeletes(s: World, w: nat, answer: DeleteAnswer, sid: nat)
    requires sid in s.sessions
    ensures Touches(s, OnDeleteOrphan(s, w, answer), w, sid, Ends(s, DeleteOrphan(w, answer), sid))
  {}

  lemma TimeoutDeletes(s: World, w: nat, answer: DeleteAnswer, sid: nat)
    requires sid in s.sessions
    ensures Touches(s, OnTimeoutDelete(s, w, answer), w, sid, Ends(s, TimeoutDelete(w, answer), sid))
  {}

  lemma SweepDeletes(s: World, w: nat, sweep: SweepAnswer, sid: nat)
    requires sid in s.sessions
    ensures Touches(s, OnSweepTag(s, w, sweep), w, sid, Ends(s, SweepTag(w, sweep), sid))
  {
    hide TruthfulSweep;
  }

  lemma TerminatingDeletes(s: World, w: nat, answer: DeleteAnswer, sweep: SweepAnswer, sid: nat)
    requires sid in s.sessions
    ensures Touches(s, OnTerminateOne(s, w, answer, sweep), w, sid, Ends(s, TerminateOne(w, answer, sweep), sid))
  {
    hide TruthfulSweep;
  }

  lemma DeletesExactly(s: World, e: Event, sid: nat)
    requires MayDelete(e) && sid in s.sessions
    ensures Touches(s, Effect(s, e), e.w, sid, Ends(s, e, sid)) || (Effect(s, e).sessions == s.sessions && !Ends(s, e, sid))
  {
    hide Touches, Ends, Effect;
    DeletingIs(s, e);
    match e
    case SettleDeleted(w, answer) => SettlingDeletes(s, w, answer, sid);
    case DeleteOrphan(w, answer) => OrphanDeletes(s, w, answer, sid);
    case TimeoutDelete(w, answer) => TimeoutDeletes(s, w, answer, sid);
    case SweepTag(w, sweep) => SweepDeletes(s, w, sweep, sid);
    case TerminateOne(w, answer, sweep) => TerminatingDeletes(s, w, answer, sweep, sid);
  }

  lemma DeletingIs(s: World, e: Event)
    ensures e.SettleDeleted? ==> Effect(s, e) == OnSettleDeleted(s, e.w, e.answer)
    ensures e.DeleteOrphan? ==> Effect(s, e) == OnDeleteOrphan(s, e.w, e.answer)
    ensures e.TimeoutDelete? ==> Effect(s, e) == OnTimeoutDelete(s, e.w, e.answer)
    ensures e.SweepTag? ==> Effect(s, e) == OnSweepTag(s, e.w, e.sweep)
    ensures e.TerminateOne? ==> Effect(s, e) == OnTerminateOne(s, e.w, e.answer, e.sweep)
  {
    hide OnSettleDeleted, OnDeleteOrphan, OnTimeoutDelete, OnSweepTag, OnTerminateOne;
  }

  /** Nothing else ends a session: whatever the event, each session of the remote stays as it is, unless
      the remote itself stops it or a DELETE of it is accepted as above. */
  lemma SessionsEndExactly(s: World, e: Event, sid: nat)
    requires sid in s.sessions
    ensures
      var t := Next(s, e);
      && sid in t.sessions
      && t.sessions[sid] ==
         if Ends(s, e, sid) then s.sessions[sid].(phase := Gone)
         else if e == RemoteStops(sid) && s.sessions[sid].phase == Working then s.sessions[sid].(phase := Stopped)
         else s.sessions[sid]
  {
    hide Ends, Effect, Waits, Touches;
    if MayDelete(e) {
      DeletesExactly(s, e, sid);
      if Touches(s, Effect(s, e), e.w, sid, Ends(s, e, sid)) {
        TouchesMeans(s, Effect(s, e), e, sid, Ends(s, e, sid));
      }
    } else if e.RemoteStops? || e.RemoteVanishes? {
      RemoteEnds(s, e, sid);
    } else {
      NothingEnds(s, e, sid);
      if e.SendPost? { PostSparesSessions(s, e, sid); } else { OthersSpareSessions(s, e); }
    }
  }

  lemma NothingEnds(s: World, e: Event, sid: nat)
    requires !MayDelete(e) && !e.RemoteVanishes?
    ensures !Ends(s, e, sid)
  {}

  lemma TouchesMeans(s: World, t: World, e: Event, sid: nat, ends: bool)
    requires MayDelete(e) && Touches(s, t, e.w, sid, ends)
    ensures sid in s.sessions && sid in t.sessions
    ensures t.sessions[sid] == (if ends then s.sessions[sid].(phase := Gone) else s.sessions[sid])
    ensures !Waits(s, t, e)
  {
    NeverWaits(s, t, e);
  }

  lemma RemoteEnds(s: World, e: Event, sid: nat)
    requires (e.RemoteStops? || e.RemoteVanishes?) && sid in s.sessions
    ensures
      var t := Next(s, e);
      && sid in t.sessions
      && (Ends(s, e, sid) <==> e == RemoteVanishes(sid))
      && t.sessions[sid] ==
         if e == RemoteVanishes(sid) then s.sessions[sid].(phase := Gone)
         else if e == RemoteStops(sid) && s.sessions[sid].phase == Working then s.sessions[sid].(phase := Stopped)
         else s.sessions[sid]
  {
    hide HoldsCase;
  }

  lemma NeverWaits(s: World, t: World, e: Event)
    requires MayDelete(e) && t.state == s.state
    requires e.w in t.processes && HoldsCase(t.processes[e.w]) ==> e.w in s.processes && HoldsCase(s.processes[e.w])
    ensures !Waits(s, t, e)
  {
    hide HoldsCase;
  }

  lemma PostSparesSessions(s: World, e: Event, sid: nat)
    requires e.SendPost? && sid in s.sessions
    ensures var t := Next(s, e); sid in t.sessions && t.sessions[sid] == s.sessions[sid]
  {
    hide Waits;
  }
}
