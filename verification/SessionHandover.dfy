/** Whole runs under an exclusive claim, with any number of operator requests beside its holder:
    replacements, and the end of a cancelled case. */
module SessionHandover {
  import opened Wrappers
  import opened Tags
  import opened SessionModel
  import opened SessionProtocol
  import opened SessionSafety
  import opened SessionOwnership
  import opened SessionSharing
  import L = Lifecycle

  // ------------------------------------------------------------------ every step keeps the invariant

  lemma NextStays(s: World, e: Event)
    ensures StaysInPhase(s, Effect(s, e)) && StaysInPhase(s, Next(s, e))
  {
    hide Effect, L.Allowed, Waits;
    var t := Effect(s, e);
    assert Follows(s, t) by { EffectFollows(s, e); }
    if L.Allowed(s.state, t.state, false) && L.InRemediation(s.state) { L.RemediationIsClosed(s.state, t.state, false); }
    if L.Allowed(s.state, t.state, true) && L.InRemediation(s.state) { L.RemediationIsClosed(s.state, t.state, true); }
    if L.Allowed(s.state, L.Triaged, false) && L.InRemediation(s.state) {
      L.RemediationIsClosed(s.state, L.Triaged, false);
    }
  }

  lemma EffectFollows(s: World, e: Event)
    ensures Follows(s, Effect(s, e))
  {
    if CreatesNothing(e) {
      hide Effect;
      EffectIsQuiet(s, e);
    } else {
      hide L.Allowed, FailJob;
      match e
      case Insert(w, h, b) => assert OnInsert(s, w, h, b).state == s.state;
      case Build(w, ok) => assert OnBuild(s, w, true).state == s.state;
      case SendPost(w, posted, sid) => assert OnSendPost(s, w, posted, sid).state == s.state;
    }
  }

  /** The process an event advances, apart from those that start one, insert or POST. */
  function WorkerOf(e: Event): Option<nat> {
    if e.ClaimCase? || e.OperatorReconcile? || e.Insert? || e.SendPost? then None else Actor(e)
  }

  /** Every worker step is a step of its own process, and of nothing else. */
  lemma EffectSteps(s: World, e: Event, exact: bool)
    requires Inv(s) && Own(s, exact) && StaysInPhase(s, Effect(s, e)) && (exact ==> ExactSearch(s, e))
    requires WorkerOf(e).Some? && HolderAt(s, WorkerOf(e).value)
    ensures Effect(s, e) == s || Steps(s, Effect(s, e), WorkerOf(e).value, exact)
  {
    hide Inv, Own, Steps, StaysInPhase, ExactSearch;
    hide OnClaim, OnOperatorReconcile, OnRemoteStops, OnOperatorCancel, OnOperatorRetry,
      OnApprovalMove, OnEvaluate, OnAdmit, OnDispatch, OnPipelineMove, OnPipelineFail, OnEnter,
      OnSettleStep, OnSettleDeleted, OnSettleCommit, OnInsert, OnBuild, OnSendPost, OnAttach,
      OnDeleteOrphan, OnRecordRefusal, OnRecordUnknown, OnStartReconcile, OnSearch,
      OnBlockUnmatched, OnPollCheck, OnPollAnswer, OnRecordLost, OnSettleOutcome, OnFinish,
      OnTimeoutGet, OnTimeoutDelete, OnPark, OnSweepTag, OnCloseOut, OnTerminateOne,
      OnTerminateCommit, OnReread, OnIngest, OnAbandon;
    match e
    case Evaluate(w) => StepEvaluate(s, w, exact);
    case Admit(w, eligible) => StepAdmit(s, w, eligible, exact);
    case Dispatch(w, pick) => StepDispatch(s, w, pick, exact);
    case PipelineMove(w, to, flagged) => StepPipelineMove(s, w, to, flagged, exact);
    case PipelineFail(w) => StepPipelineFail(s, w, exact);
    case Enter(w, granted) => StepEnter(s, w, granted, exact);
    case SettleStep(w, got) => StepSettleStep(s, w, got, exact);
    case SettleDeleted(w, answer) => StepSettleDeleted(s, w, answer, exact);
    case SettleCommit(w) => StepSettleCommit(s, w, exact);
    case Build(w, ok) => StepBuild(s, w, ok, exact);
    case Attach(w) => StepAttach(s, w, exact);
    case DeleteOrphan(w, answer) => StepDeleteOrphan(s, w, answer, exact);
    case RecordRefusal(w) => StepRecordRefusal(s, w, exact);
    case RecordUnknown(w) => StepRecordUnknown(s, w, exact);
    case StartReconcile(w) => StepStartReconcile(s, w, exact);
    case Search(w, found) => StepSearch(s, w, found, exact);
    case BlockUnmatched(w) => StepBlockUnmatched(s, w, exact);
    case PollCheck(w, expired) => StepPollCheck(s, w, expired, exact);
    case PollAnswer(w, got) => StepPollAnswer(s, w, got, exact);
    case RecordLost(w) => StepRecordLost(s, w, exact);
    case SettleOutcome(w) => StepSettleOutcome(s, w, exact);
    case Finish(w, valid) => StepFinish(s, w, valid, exact);
    case TimeoutGet(w, got) => StepTimeoutGet(s, w, got, exact);
    case TimeoutDelete(w, answer) => StepTimeoutDelete(s, w, answer, exact);
    case Park(w) => StepPark(s, w, exact);
    case SweepTag(w, sweep) => StepSweepTag(s, w, sweep, exact);
    case CloseOut(w, expired) => StepCloseOut(s, w, expired, exact);
    case TerminateOne(w, answer, sweep) => StepTerminateOne(s, w, answer, sweep, exact);
    case TerminateCommit(w) => StepTerminateCommit(s, w, exact);
    case Reread(w, got) => StepReread(s, w, got, exact);
    case Ingest(w) => StepIngest(s, w, exact);
    case Abandon(w) => StepAbandon(s, w, exact);
  }

  lemma AroundSteps(s: World, e: Event, exact: bool)
    requires Own(s, exact) && StaysInPhase(s, Effect(s, e))
    requires e.RemoteStops? || e.RemoteVanishes? || e.OperatorCancel? || e.OperatorRetry? || e.ApprovalMove?
    ensures Around(s, Effect(s, e))
  {
    hide Own;
    match e
    case OperatorRetry(confirm) =>
      hide OnOperatorRetry;
      AroundOperatorRetry(s, confirm);
    case OperatorCancel =>
      hide OnOperatorCancel;
      AroundOperatorCancel(s);
    case _ => hide L.Allowed;
  }

  lemma AroundOperatorCancel(s: World)
    requires StaysInPhase(s, OnOperatorCancel(s))
    ensures Around(s, OnOperatorCancel(s))
  {
    hide L.InRemediation, MayOwn;
  }

  /** An operator's request takes no step but its own four. */
  lemma RequestStands(s: World, e: Event)
    requires WorkerOf(e).Some? && WorkerOf(e).value in s.processes
    requires
      var p := s.processes[WorkerOf(e).value];
      !Holder(p) && (p.pc.Rereading? || p.pc.Settled? || p.pc.Finishing?)
    requires !e.Reread? && !e.Ingest? && !e.SettleOutcome? && !e.Finish?
    ensures Effect(s, e) == s
  {
    hide FailJob, MoveOn, MoveAndStop, Goto, Stop, Lost, SetRow, CanMove, AfterSweep, AfterDelete, TerminationEntry,
      L.Allowed, L.InRemediation, L.IsTerminationPending, Rewrite, PhaseOf;
  }

  lemma EffectIsRequest(s: World, e: Event)
    ensures e.Reread? ==> Effect(s, e) == OnReread(s, e.w, e.got)
    ensures e.Ingest? ==> Effect(s, e) == OnIngest(s, e.w)
    ensures e.SettleOutcome? ==> Effect(s, e) == OnSettleOutcome(s, e.w)
    ensures e.Finish? ==> Effect(s, e) == OnFinish(s, e.w, e.valid)
  {
    hide OnReread, OnIngest, OnSettleOutcome, OnFinish;
  }

  lemma EffectAssists(s: World, e: Event, exact: bool)
    requires Own(s, exact) && WorkerOf(e).Some? && !HolderAt(s, WorkerOf(e).value)
    ensures Effect(s, e) == s || Assists(s, Effect(s, e), WorkerOf(e).value)
  {
    hide Own, Effect, Assists, OnReread, OnIngest, OnSettleOutcome, OnFinish;
    EffectIsRequest(s, e);
    var w := WorkerOf(e).value;
    if e.Reread? {
      AssistsReread(s, w, e.got, exact);
    } else if e.Ingest? {
      AssistsIngest(s, w, exact);
    } else if e.SettleOutcome? {
      AssistsOutcome(s, w, exact);
    } else if e.Finish? {
      AssistsFinish(s, w, e.valid, exact);
    } else {
      AtRequest(s, w, exact);
      RequestStands(s, e);
    }
  }

  lemma NextIs(s: World, e: Event)
    ensures Next(s, e) == s || (Next(s, e) == Effect(s, e) && Patient(s, Effect(s, e), Actor(e)))
  {
    hide Effect, HoldsCase, Actor;
  }

  // ------------------------------------------------------------------ a blocked case, and a running one

  /** A process at the end of its list takes no other step than its commit. */
  lemma OnlyItsCommit(s: World, e: Event)
    requires WorkerOf(e).Some? && WorkerOf(e).value in s.processes
    requires
      var pc := s.processes[WorkerOf(e).value].pc;
      (pc.Terminating? && pc.todo == [] && !e.TerminateCommit?) || (pc.Rereading? && pc.todo == [] && !e.Ingest?)
    ensures Effect(s, e) == s
  {
    hide FailJob, MoveOn, MoveAndStop, Goto, Stop, Lost, SetRow, CanMove, AfterSweep, AfterDelete, TerminationEntry,
      L.Allowed, L.InRemediation, L.IsTerminationPending, Rewrite, PhaseOf;
  }

  /** Ingesting an output takes the case out of HUMAN_BLOCKED, or changes nothing. */
  lemma IngestIsCalm(s: World, w: nat, exact: bool)
    requires Own(s, exact) && w in s.processes && Holder(s.processes[w]) && s.processes[w].pc.Rereading?
    ensures Calm(s, OnIngest(s, w))
  {
    hide Own, L.Allowed, Chosen;
    AtReading(s, w, exact);
  }

  lemma HolderIsCalm(s: World, e: Event, exact: bool)
    requires Own(s, exact) && WorkerOf(e).Some? && HolderAt(s, WorkerOf(e).value)
    requires Effect(s, e) == s || Steps(s, Effect(s, e), WorkerOf(e).value, exact)
    ensures Calm(s, Effect(s, e))
  {
    hide Own, Effect, Steps, Calm, OnIngest;
    var t := Effect(s, e);
    var w := WorkerOf(e).value;
    if t == s || s.state != L.HumanBlocked {
      CalmIdle(s, t);
    } else {
      assert w in s.processes by { StepsParts(s, t, w, exact); }
      assert AtBlockedCase(s.processes[w]) by { BlockedCase(s, w, exact); }
      if s.processes[w].pc.Rereading? && s.processes[w].pc.todo == [] {
        if e.Ingest? { IngestIsCalm(s, w, exact); EffectIsCommit(s, e); } else { OnlyItsCommit(s, e); }
      } else {
        StepsParts(s, t, w, exact);
        FramedIsCalm(s, t);
      }
    }
  }

  lemma CalmIdle(s: World, t: World)
    requires t == s || s.state != L.HumanBlocked
    ensures Calm(s, t)
  {}

  lemma StepsParts(s: World, t: World, w: nat, exact: bool)
    requires Steps(s, t, w, exact)
    ensures w in s.processes && Framed(s, t, Free(s, w))
  {
    hide Framed;
  }

  lemma BlockedCase(s: World, w: nat, exact: bool)
    requires HolderAt(s, w) && Own(s, exact) && w in s.processes && s.state == L.HumanBlocked
    ensures AtBlockedCase(s.processes[w])
  {
    hide Own, RowPcOk, PcOk;
    AtProcess(s, w, exact);
  }

  lemma FramedIsCalm(s: World, t: World)
    requires Framed(s, t, {})
    ensures Calm(s, t)
  {
    hide RowTrace, SingleOwner, Aged;
    forall i | 0 <= i < |s.attempts| && Retained(s.attempts[i]) ensures Retained(t.attempts[i]) {
      assert RowStep(s.attempts[i], t.attempts[i], false);
    }
  }

  /** From HUMAN_BLOCKED a holder gets the case to TRIAGING only by ingesting an output. */
  lemma BlockedToTriaging(s: World, e: Event, exact: bool)
    requires Own(s, exact) && WorkerOf(e).Some? && HolderAt(s, WorkerOf(e).value) && !e.Ingest?
    requires s.state == L.HumanBlocked
    ensures Effect(s, e).state != L.Triaging
  {
    hide Own;
    var w := WorkerOf(e).value;
    if w in s.processes {
      BlockedCase(s, w, exact);
      HolderStands(s, e);
    }
  }

  lemma HolderStands(s: World, e: Event)
    requires WorkerOf(e).Some? && WorkerOf(e).value in s.processes && !e.Ingest?
    requires s.state == L.HumanBlocked && AtBlockedCase(s.processes[WorkerOf(e).value])
    ensures Effect(s, e).state == s.state
  {
    hide Effect, Early;
    if Early(e) { HolderStandsEarly(s, e); } else { HolderStandsLate(s, e); }
  }

  lemma HolderStandsEarly(s: World, e: Event)
    requires WorkerOf(e).Some? && WorkerOf(e).value in s.processes && Early(e)
    requires s.state == L.HumanBlocked && AtBlockedCase(s.processes[WorkerOf(e).value])
    ensures Effect(s, e).state == s.state
  {
    hide FailJob, MoveOn, MoveAndStop, CanMove, AfterSweep, AfterDelete, TerminationEntry, L.Allowed, Rewrite, PhaseOf, Lost;
  }

  lemma HolderStandsLate(s: World, e: Event)
    requires WorkerOf(e).Some? && WorkerOf(e).value in s.processes && !e.Ingest? && !Early(e)
    requires s.state == L.HumanBlocked && AtBlockedCase(s.processes[WorkerOf(e).value])
    ensures Effect(s, e).state == s.state
  {
    hide FailJob, MoveOn, MoveAndStop, CanMove, AfterSweep, AfterDelete, TerminationEntry, L.Allowed, Rewrite, PhaseOf, Lost;
  }

  lemma IngestedOwnerRuns(s: World, w: nat, exact: bool)
    requires Own(s, exact) && w in s.processes && Holder(s.processes[w]) && OnIngest(s, w) != s
    requires s.state == L.HumanBlocked && OnIngest(s, w).state == L.Triaging
    ensures HasActiveTriage(OnIngest(s, w))
  {
    hide Own, L.Allowed, Chosen;
    AtReading(s, w, exact);
    var Rereading(candidates, _, found) := s.processes[w].pc;
    ReadingChoice(s, candidates, found);
    var t := OnIngest(s, w);
    assert t.attempts[Chosen(found)] in t.attempts;
  }

  /** While triage runs, no triage attempt is blocked. */
  lemma TriagingStays(s: World, e: Event, exact: bool)
    requires Own(s, exact) && WorkerOf(e).Some? && HolderAt(s, WorkerOf(e).value)
    requires Steps(s, Effect(s, e), WorkerOf(e).value, exact) && CreatesNothing(e)
    ensures TriagingOk(Effect(s, e))
  {
    hide Own, Effect, Steps, CreatesNothing, OnIngest;
    var t := Effect(s, e);
    var w := WorkerOf(e).value;
    EffectIsQuiet(s, e);
    StepsParts(s, t, w, exact);
    AtTriaging(s, exact);
    AtProcess(s, w, exact);
    hide ProcessOk, Framed;
    if t.state == L.Triaging {
      if s.state == L.Triaging {
        SameKinds(s, t);
        NoneBlockedStays(s, t);
      } else {
        if s.state == L.HumanBlocked {
          if e.Ingest? { EffectIsCommit(s, e); IngestedOwnerRuns(s, w, exact); } else { BlockedToTriaging(s, e, exact); }
        }
        assert SingleOwner(t) by { FramedSingle(s, t, Free(s, w)); }
        ActiveIsOnly(t);
      }
    }
  }

  lemma FramedSingle(s: World, t: World, released: set<nat>)
    requires Framed(s, t, released) && SingleOwner(s)
    ensures SingleOwner(t)
  {
    hide SingleOwner, RowTrace;
  }

  lemma SameKinds(s: World, t: World)
    requires Harmless(s, t)
    ensures |t.attempts| == |s.attempts| && forall i | 0 <= i < |s.attempts| :: t.attempts[i].kind == s.attempts[i].kind
  {
    forall i | 0 <= i < |s.attempts| ensures t.attempts[i].kind == s.attempts[i].kind {
      assert SameIdentity(s.attempts[i], t.attempts[i]);
    }
  }

  lemma NoneBlockedStays(s: World, t: World)
    requires TriagingOk(s) && s.state == L.Triaging && NoneGetsBlocked(s, t)
    requires forall i | 0 <= i < |s.attempts| :: t.attempts[i].kind == s.attempts[i].kind
    ensures TriagingOk(t)
  {
    forall a <- t.attempts ensures a.kind == Triage ==> a.status != Blocked {
      var i :| 0 <= i < |t.attempts| && t.attempts[i] == a;
      assert s.attempts[i] in s.attempts;
    }
  }

  lemma ActiveIsOnly(s: World)
    requires SingleOwner(s) && HasActiveTriage(s)
    ensures TriagingOk(s)
  {
    var a :| a in s.attempts && ActiveOf(a, Triage);
    var i :| 0 <= i < |s.attempts| && s.attempts[i] == a;
    OwnerIsAlone(s, i);
    forall b <- s.attempts ensures b.kind == Triage ==> b.status != Blocked {
      var j :| 0 <= j < |s.attempts| && s.attempts[j] == b;
    }
  }

  /** `OnBuild` with a request ready marks the row as sent; nothing gets blocked. */
  lemma BuildStays(s: World, w: nat, exact: bool)
    requires Own(s, exact)
    ensures TriagingOk(OnBuild(s, w, true))
  {
    hide Own;
    AtTriaging(s, exact);
    var t := OnBuild(s, w, true);
    if t != s {
      assert NoneGetsBlocked(s, t);
      if s.state == L.Triaging { NoneBlockedStays(s, t); }
    }
  }

  lemma HolderKeeps(s: World, e: Event, exact: bool)
    requires Inv(s) && Own(s, exact) && WorkerOf(e).Some? && HolderAt(s, WorkerOf(e).value)
    requires (exact ==> ExactSearch(s, e)) && Patient(s, Effect(s, e), Actor(e))
    ensures Own(Effect(s, e), exact)
  {
    hide Inv, Own, Effect, ExactSearch, Steps, Patient, Calm, TriagingOk, OnBuild;
    NextStays(s, e);
    EffectSteps(s, e, exact);
    if Effect(s, e) != s {
      HolderIsCalm(s, e, exact);
      if CreatesNothing(e) {
        TriagingStays(s, e, exact);
      } else {
        BuildStays(s, WorkerOf(e).value, exact);
        EffectIsBuild(s, e);
      }
      StepsKeep(s, Effect(s, e), WorkerOf(e).value, exact);
    }
  }

  lemma NextOwns(s: World, e: Event, exact: bool)
    requires Inv(s) && Own(s, exact) && Serial(s, e) && (exact ==> ExactSearch(s, e))
    ensures Own(Next(s, e), exact)
  {
    hide Inv, Own, ExactSearch, Next, Effect, Patient, Around, Serial, Assists;
    NextIs(s, e);
    NextStays(s, e);
    if Next(s, e) == s {
    } else if WorkerOf(e).Some? {
      var w := WorkerOf(e).value;
      if HolderAt(s, w) {
        HolderKeeps(s, e, exact);
      } else {
        EffectAssists(s, e, exact);
        AssistsKeep(s, Effect(s, e), w, exact);
      }
    } else {
      OtherKeeps(s, e, exact);
    }
  }

  lemma OtherKeeps(s: World, e: Event, exact: bool)
    requires Inv(s) && Own(s, exact) && Serial(s, e) && WorkerOf(e).None?
    requires StaysInPhase(s, Effect(s, e)) && Patient(s, Effect(s, e), Actor(e))
    ensures Own(Effect(s, e), exact)
  {
    hide Inv, Own, Around, Serial, OnClaim, OnOperatorReconcile, OnInsert, OnSendPost, OnRemoteStops, OnOperatorCancel,
      OnOperatorRetry, OnApprovalMove, Patient, StaysInPhase;
    match e
    case ClaimCase(w) => ClaimKeeps(s, w, exact);
    case OperatorReconcile(w) => ReconcileKeeps(s, w, exact);
    case Crash(w) => CrashKeeps(s, w, exact);
    case Insert(w, h, b) => InsertOwns(s, w, h, b, exact);
    case SendPost(w, posted, sid) => SendPostOwns(s, w, posted, sid, exact);
    case _ =>
      hide Effect;
      AroundSteps(s, e, exact);
      AroundKeeps(s, Effect(s, e), exact);
  }

  lemma EffectIsCommit(s: World, e: Event)
    ensures e.TerminateCommit? ==> Effect(s, e) == OnTerminateCommit(s, e.w)
    ensures e.Ingest? ==> Effect(s, e) == OnIngest(s, e.w)
    ensures e.CloseOut? ==> Effect(s, e) == OnCloseOut(s, e.w, e.expired)
  {
    hide OnTerminateCommit, OnIngest, OnCloseOut;
  }

  lemma EffectIsBuild(s: World, e: Event)
    requires WorkerOf(e).Some? && !CreatesNothing(e)
    ensures Effect(s, e) == OnBuild(s, WorkerOf(e).value, true)
  {
    hide OnBuild;
  }

  // ------------------------------------------------------------------ over every serial run

  /** One process at a time, crashes and operator requests anywhere; if `exact`, every search by
      tag returns all the sessions that are not gone. */
  ghost predicate SerialRun(config: Config, es: seq<Event>, exact: bool) {
    forall n | 0 <= n < |es| :: Serial(At(config, es, n), es[n]) && (exact ==> ExactSearch(At(config, es, n), es[n]))
  }

  lemma {:induction false} RunOwns(config: Config, es: seq<Event>, n: nat, exact: bool)
    requires SerialRun(config, es, exact) && n <= |es|
    ensures Inv(At(config, es, n)) && Own(At(config, es, n), exact)
  {
    hide Inv, Next, Serial, ExactSearch;
    RunKeeps(config, es[..n]);
    if n > 0 {
      hide Own;
      RunOwns(config, es, n - 1, exact);
      AtNext(config, es, n - 1);
      NextOwns(At(config, es, n - 1), es[n - 1], exact);
    } else {
      assert At(config, es, 0) == Initial(config);
    }
  }

  /** Each kind has at most one attempt that is running, reconciling, pending or blocked. */
  lemma AtMostOneOwner(config: Config, es: seq<Event>)
    requires SerialRun(config, es, false)
    ensures SingleOwner(Run(Initial(config), es))
  {
    RunOwns(config, es, |es|, false);
    assert es[..|es|] == es;
  }

  // ------------------------------------------------------------------ what releases a blocked attempt

  /** What the program knows about the session of blocked row `i` when it lets go of it: it was
      seen gone or the operator vouched for it, or its termination was confirmed. */
  ghost predicate ReleasedWithEvidence(s: World, e: Event, i: nat, exact: bool)
    requires i < |s.attempts|
  {
    GivenUp(s, s.attempts[i]) || (e.TerminateCommit? && (exact ==> RowQuiet(s, i)))
  }

  /** An ingested output never supersedes anything here: the row it belongs to was the only owner. */
  lemma IngestSupersedesNothing(s: World, w: nat, i: nat, exact: bool)
    requires Own(s, exact) && HolderAt(s, w) && i < |s.attempts| && s.attempts[i].status == Blocked
    ensures |OnIngest(s, w).attempts| == |s.attempts| && Owning(OnIngest(s, w).attempts[i])
  {
    hide L.Allowed, Own, MoveOn, CanMove, RereadingOk, Retained;
    if w in s.processes && s.processes[w].pc.Rereading? && s.processes[w].pc.todo == [] && s.processes[w].pc.found != [] {
      var Rereading(candidates, _, found) := s.processes[w].pc;
      AtReading(s, w, exact);
      if s.state == L.HumanBlocked {
        ReadingChoice(s, candidates, found);
        if i in candidates { OneCandidate(s, candidates, i, Chosen(found), exact); }
      } else {
        LateIngest(s, w);
      }
    }
  }

  lemma OneCandidate(s: World, candidates: seq<nat>, i: nat, j: nat, exact: bool)
    requires Own(s, exact) && RereadingOk(s, candidates, [], []) && i in candidates && j in candidates
    ensures i == j
  {
    hide RemoteOk, RemediationOk, HoldersOk, OperatorsOk, RowsTraced, TriagingOk, OneHolder;
    SoleIndex(s, i, j);
  }

  lemma CommitReleases(s: World, w: nat, i: nat, exact: bool)
    requires Own(s, exact) && HolderAt(s, w) && i < |s.attempts| && s.attempts[i].status == Blocked
    requires !Owning(OnTerminateCommit(s, w).attempts[i])
    ensures |OnTerminateCommit(s, w).attempts| == |s.attempts|
    ensures exact ==> RowQuiet(s, i)
  {
    hide Own, RowQuiet, L.Allowed;
    if w in s.processes && s.processes[w].pc.Terminating? && s.processes[w].pc.todo == [] {
      AtTermination(s, w, exact);
    }
  }

  /** Whatever happens, a blocked attempt keeps blocking until there is evidence. */
  lemma BlockedNeedsEvidence(s: World, e: Event, i: nat, exact: bool)
    requires Inv(s) && Own(s, exact) && Serial(s, e) && (exact ==> ExactSearch(s, e))
    requires i < |s.attempts| && s.attempts[i].status == Blocked
    ensures i < |Next(s, e).attempts|
    ensures Owning(Next(s, e).attempts[i]) || ReleasedWithEvidence(s, e, i, exact)
  {
    hide Next, Effect, Own, ReleasedWithEvidence, Serial, ExactSearch, Steps, Inv, StaysInPhase, Patient, Assists;
    NextStays(s, e);
    NextIs(s, e);
    if Next(s, e) == s {
    } else if WorkerOf(e).None? {
      RowsStandStill(s, e, i, exact);
    } else if HolderAt(s, WorkerOf(e).value) {
      HolderEvidence(s, e, i, exact);
    } else {
      EffectAssists(s, e, exact);
      RequestLetsBe(s, Effect(s, e), WorkerOf(e).value, i);
    }
  }

  /** An operator's request never lets go of a blocked attempt. */
  lemma RequestLetsBe(s: World, t: World, w: nat, i: nat)
    requires Assists(s, t, w) && i < |s.attempts| && s.attempts[i].status == Blocked
    ensures i < |t.attempts| && Owning(t.attempts[i])
  {
    assert Gentle(s.attempts[i], t.attempts[i]);
  }

  lemma HolderEvidence(s: World, e: Event, i: nat, exact: bool)
    requires Inv(s) && Own(s, exact) && StaysInPhase(s, Effect(s, e)) && (exact ==> ExactSearch(s, e))
    requires WorkerOf(e).Some? && HolderAt(s, WorkerOf(e).value)
    requires i < |s.attempts| && s.attempts[i].status == Blocked
    ensures i < |Effect(s, e).attempts|
    ensures Owning(Effect(s, e).attempts[i]) || ReleasedWithEvidence(s, e, i, exact)
  {
    hide Effect, Own, ReleasedWithEvidence, ExactSearch, Steps, Inv, StaysInPhase, OnTerminateCommit, OnIngest;
    EffectIsCommit(s, e);
    if e.TerminateCommit? {
      CommitKeepsRows(s, e.w);
      if !Owning(OnTerminateCommit(s, e.w).attempts[i]) { CommitEvidence(s, e, i, exact); }
    } else if e.Ingest? {
      IngestSupersedesNothing(s, e.w, i, exact);
    } else {
      EffectSteps(s, e, exact);
      if Effect(s, e) != s { StepEvidence(s, e, i, exact); }
    }
  }

  lemma CommitKeepsRows(s: World, w: nat)
    ensures |OnTerminateCommit(s, w).attempts| == |s.attempts|
  {
    hide L.Allowed;
  }

  lemma CommitEvidence(s: World, e: Event, i: nat, exact: bool)
    requires Own(s, exact) && i < |s.attempts| && s.attempts[i].status == Blocked && e.TerminateCommit? && HolderAt(s, e.w)
    requires |OnTerminateCommit(s, e.w).attempts| == |s.attempts| && !Owning(OnTerminateCommit(s, e.w).attempts[i])
    ensures ReleasedWithEvidence(s, e, i, exact)
  {
    hide Own, RowQuiet, OnTerminateCommit;
    CommitReleases(s, e.w, i, exact);
  }

  /** Only the settling loop releases rows step by step, and only rows it has given up. */
  lemma StepEvidence(s: World, e: Event, i: nat, exact: bool)
    requires Own(s, exact) && WorkerOf(e).Some? && !e.TerminateCommit? && !e.Ingest?
    requires Effect(s, e) != s && Steps(s, Effect(s, e), WorkerOf(e).value, exact)
    requires i < |s.attempts| && s.attempts[i].status == Blocked
    ensures i < |Effect(s, e).attempts|
    ensures Owning(Effect(s, e).attempts[i]) || ReleasedWithEvidence(s, e, i, exact)
  {
    hide Own, Effect, RowPcOk, RowTrace, L.InRemediation, GivenUp, Closes, SingleOwner;
    var w := WorkerOf(e).value;
    AtProcess(s, w, exact);
    assert RowStep(s.attempts[i], Effect(s, e).attempts[i], i in Free(s, w));
    var pc := s.processes[w].pc;
    if (pc.Terminating? || pc.Rereading?) && pc.todo == [] { OnlyItsCommit(s, e); }
  }

  lemma RowsStandStill(s: World, e: Event, i: nat, exact: bool)
    requires Own(s, exact) && WorkerOf(e).None? && StaysInPhase(s, Effect(s, e))
    requires i < |s.attempts|
    ensures i < |Effect(s, e).attempts| && Effect(s, e).attempts[i].status == s.attempts[i].status
  {
    hide Own, KeyFor, StaysInPhase, L.Allowed;
    if e.RemoteStops? || e.RemoteVanishes? || e.OperatorCancel? || e.OperatorRetry? || e.ApprovalMove? {
      hide Effect;
      AroundSteps(s, e, exact);
      AcknowledgedStatus(s, Effect(s, e), i);
    } else {
      match e
      case ClaimCase(w) => assert OnClaim(s, w).attempts == s.attempts;
      case OperatorReconcile(w) => assert OnOperatorReconcile(s, w).attempts == s.attempts;
      case Crash(w) =>
      case Insert(w, h, b) => assert OnInsert(s, w, h, b).attempts[..|s.attempts|] == s.attempts;
      case SendPost(w, posted, sid) => assert OnSendPost(s, w, posted, sid).attempts == s.attempts;
    }
  }

  lemma AcknowledgedStatus(s: World, t: World, i: nat)
    requires Around(s, t) && i < |s.attempts|
    ensures i < |t.attempts| && t.attempts[i].status == s.attempts[i].status
  {
    assert Acknowledges(s.attempts[i], t.attempts[i]);
  }

  /** Over a serial run: a blocked attempt that has stopped owning its session was released, at
      some event of the run, with evidence; or it came out of BLOCKED still owning it. */
  ghost predicate ReleasedAt(config: Config, es: seq<Event>, m: nat, i: nat, exact: bool)
    requires m < |es|
  {
    && i < |At(config, es, m).attempts| && At(config, es, m).attempts[i].status == Blocked
    && i < |At(config, es, m + 1).attempts|
    && (Owning(At(config, es, m + 1).attempts[i]) || ReleasedWithEvidence(At(config, es, m), es[m], i, exact))
    && At(config, es, m + 1).attempts[i].status != Blocked
  }

  lemma {:induction false} BlockedWasReleased(config: Config, es: seq<Event>, j: nat, n: nat, i: nat, exact: bool)
    requires SerialRun(config, es, exact) && j <= n <= |es|
    requires i < |At(config, es, j).attempts| && At(config, es, j).attempts[i].status == Blocked
    ensures i < |At(config, es, n).attempts|
    ensures At(config, es, n).attempts[i].status != Blocked ==>
              exists m | j <= m < n :: ReleasedAt(config, es, m, i, exact)
  {
    hide Next, Inv, Own, Serial, ExactSearch, At, Owning, ReleasedWithEvidence;
    if j < n {
      BlockedWasReleased(config, es, j, n - 1, i, exact);
      var s := At(config, es, n - 1);
      RunOwns(config, es, n - 1, exact);
      AtNext(config, es, n - 1);
      RowsRemain(s, es[n - 1]);
      if s.attempts[i].status == Blocked {
        BlockedNeedsEvidence(s, es[n - 1], i, exact);
        assert At(config, es, n).attempts[i].status != Blocked ==> ReleasedAt(config, es, n - 1, i, exact);
      }
    }
  }

  lemma RowsRemain(s: World, e: Event)
    ensures |s.attempts| <= |Next(s, e).attempts|
  {
    if CreatesNothing(e) {
      hide Next;
      NextIsQuiet(s, e);
    } else {
      hide L.Allowed, FailJob, Waits;
      match e
      case Insert(w, h, b) => assert |s.attempts| <= |OnInsert(s, w, h, b).attempts|;
      case Build(w, ok) => assert |s.attempts| <= |OnBuild(s, w, true).attempts|;
      case SendPost(w, posted, sid) => assert |s.attempts| <= |OnSendPost(s, w, posted, sid).attempts|;
    }
  }

  /** A replacement is safe: when a new row of a kind is inserted, no attempt of that kind owns a
      session any more, and every attempt of it that was ever blocked was released before. */
  lemma ReplacementIsSafe(config: Config, es: seq<Event>, w: nat, h: string, b: string, i: nat, j: nat, exact: bool)
    requires SerialRun(config, es, exact)
    requires
      var s := Run(Initial(config), es);
      && |OnInsert(s, w, h, b).attempts| == |s.attempts| + 1
      && i < |s.attempts| && s.attempts[i].kind == OnInsert(s, w, h, b).attempts[|s.attempts|].kind
    requires j <= |es|
    ensures !Owning(Run(Initial(config), es).attempts[i])
    ensures i < |At(config, es, j).attempts| && At(config, es, j).attempts[i].status == Blocked ==>
              exists m | j <= m < |es| :: ReleasedAt(config, es, m, i, exact)
  {
    hide Inv, Next;
    var s := Run(Initial(config), es);
    assert es[..|es|] == es;
    RunOwns(config, es, |es|, exact);
    NoOwnerAtInsert(s, w, h, b, i, exact);
    if i < |At(config, es, j).attempts| && At(config, es, j).attempts[i].status == Blocked {
      hide Run, Initial, Own, At;
      BlockedWasReleased(config, es, j, |es|, i, exact);
    }
  }

  lemma NoOwnerAtInsert(s: World, w: nat, h: string, b: string, i: nat, exact: bool)
    requires Own(s, exact) && |OnInsert(s, w, h, b).attempts| == |s.attempts| + 1
    requires i < |s.attempts| && s.attempts[i].kind == OnInsert(s, w, h, b).attempts[|s.attempts|].kind
    ensures !Owning(s.attempts[i])
  {
    hide Own, KeyFor, Insertable;
    InserterHolds(s, w, exact);
    AtProcess(s, w, exact);
    assert s.attempts[i] in s.attempts;
  }

  /** A retained session that already has structured output is never replaced: the GET of the
      settling loop that sees output ends the job and deletes nothing. */
  lemma OutputRefusesReplacement(s: World, w: nat, got: GetAnswer)
    requires w in s.processes && s.processes[w].pc.Settling? && got.Snapshot? && got.output
    requires
      var pc := s.processes[w].pc;
      && pc.todo != [] && pc.todo[0] < |s.attempts|
      && s.attempts[pc.todo[0]].createState != Unresolved && s.attempts[pc.todo[0]].session.Some?
      && TruthfulGet(s, s.attempts[pc.todo[0]].session.value, got)
    ensures
      var t := OnSettleStep(s, w, got);
      && t.sessions == s.sessions
      && (w in t.processes ==> t.processes[w].pc == Abandoning)
      && (s.processes[w].pc.todo[0] !in s.processes[w].pc.closed && s.attempts[s.processes[w].pc.todo[0]].status == Blocked ==>
            t.attempts[s.processes[w].pc.todo[0]] == s.attempts[s.processes[w].pc.todo[0]])
  {
    hide FailJob;
  }

  // ------------------------------------------------------------------ the end of a cancelled case

  /** With searches that miss nothing: when a worker takes a case out of TERMINATION_PENDING into
      a terminal state, every row that owned a session is closed and nothing that carries its key
      works; as long as that is not so, the case stays. */
  lemma CaseClosesOnlyWhenQuiet(config: Config, es: seq<Event>, n: nat, i: nat)
    requires SerialRun(config, es, true) && n < |es| && WorkerOf(es[n]).Some?
    requires At(config, es, n).state == L.TerminationPending && L.Terminal(At(config, es, n + 1).state)
    requires i < |At(config, es, n).attempts| && Owning(At(config, es, n).attempts[i])
    ensures i < |At(config, es, n + 1).attempts| && !Owning(At(config, es, n + 1).attempts[i])
    ensures RowQuiet(At(config, es, n + 1), i)
  {
    var s, t := At(config, es, n), At(config, es, n + 1);
    assert t == Next(s, es[n]) && Inv(s) && Own(s, true) && StaysInPhase(s, Effect(s, es[n])) && ExactSearch(s, es[n]) by {
      hide Next, Effect, Own, Inv, ExactSearch;
      AtNext(config, es, n);
      RunOwns(config, es, n, true);
      NextStays(s, es[n]);
    }
    hide Next, Effect, Own, Inv, ExactSearch, At, Owning, L.InRemediation, Patient, StaysInPhase;
    NextIs(s, es[n]);
    var w := WorkerOf(es[n]).value;
    if HolderAt(s, w) {
      EffectSteps(s, es[n], true);
      assert Closes(s, t, true);
      QuietStaysQuiet(s, t, i, Free(s, w));
    } else {
      EffectAssists(s, es[n], true);
    }
  }

  lemma QuietStaysQuiet(s: World, t: World, i: nat, released: set<nat>)
    requires Framed(s, t, released) && i < |s.attempts| && RowQuiet(s, i)
    ensures RowQuiet(t, i)
  {
    hide RowTrace, Owning, L.InRemediation;
    assert RowStep(s.attempts[i], t.attempts[i], i in released);
    forall x <- t.sessions ensures t.sessions[x].tag == t.attempts[i].key ==> t.sessions[x].phase != Working {
      assert Aged(s.sessions[x], t.sessions[x]);
    }
  }

  // ------------------------------------------------------------------ the end of a cancelled remediation

  /** A holder closes a case whose remediation waits for its termination by closing out its attempt,
      by the commit of a sweep, or by a failure that leaves no sent attempt active. */
  lemma ClosesByFailure(s: World, e: Event)
    requires WorkerOf(e).Some? && !e.CloseOut? && !e.TerminateCommit?
    requires s.state == L.RemediationTerminationPending && L.Terminal(Effect(s, e).state)
    ensures LiveRows(Effect(s, e).attempts) == {}
  {
    hide Effect;
    if e.Enter? || e.SettleCommit? {
      ClosesEntry(s, e);
    } else if e.SettleStep? || e.SettleDeleted? {
      ClosesSettling(s, e);
    } else if e.RecordRefusal? || e.RecordUnknown? || e.Build? {
      ClosesCreating(s, e);
    } else if e.Attach? || e.DeleteOrphan? || e.StartReconcile? {
      AttachStaysOpen(s, e);
    } else if e.Evaluate? || e.Admit? || e.PipelineMove? || e.PipelineFail? {
      StartStaysOpen(s, e);
    } else if e.Dispatch? {
      DispatchKeepsState(s, e);
    } else if e.SettleOutcome? || e.Finish? {
      ClosesOutcome(s, e);
    } else if e.BlockUnmatched? || e.RecordLost? {
      ClosesPolling(s, e);
    } else if e.Park? || e.Ingest? {
      hide OnPark, OnIngest;
      ParkIsEffect(s, e);
      ParkStaysOpen(s, e.w);
      IngestStaysOpen(s, e.w);
    } else if e.Search? || e.PollCheck? || e.PollAnswer? {
      PollsKeepState(s, e);
    } else {
      AnswersKeepState(s, e);
    }
  }

  lemma ClosesEntry(s: World, e: Event)
    requires e.Enter? || e.SettleCommit?
    requires s.state == L.RemediationTerminationPending && L.Terminal(Effect(s, e).state)
    ensures LiveRows(Effect(s, e).attempts) == {}
  {
    hide FailJob, LiveRows, NewestActive, NextOrdinal, Select, Rewrite;
  }

  lemma ClosesSettling(s: World, e: Event)
    requires e.SettleStep? || e.SettleDeleted?
    requires s.state == L.RemediationTerminationPending && L.Terminal(Effect(s, e).state)
    ensures LiveRows(Effect(s, e).attempts) == {}
  {
    hide Effect, OnSettleStep, OnSettleDeleted, LiveRows;
    FailureEffect(s, e);
    if e.SettleStep? {
      SettleStepCloses(s, e.w, e.got);
    } else {
      SettleDeletedCloses(s, e.w, e.answer);
    }
  }

  lemma FailureEffect(s: World, e: Event)
    ensures e.SettleStep? ==> Effect(s, e) == OnSettleStep(s, e.w, e.got)
    ensures e.SettleDeleted? ==> Effect(s, e) == OnSettleDeleted(s, e.w, e.answer)
    ensures e.SettleOutcome? ==> Effect(s, e) == OnSettleOutcome(s, e.w)
    ensures e.Finish? ==> Effect(s, e) == OnFinish(s, e.w, e.valid)
  {
    hide OnSettleStep, OnSettleDeleted, OnSettleOutcome, OnFinish;
  }

  lemma SettleStepCloses(s: World, w: nat, got: GetAnswer)
    requires s.state == L.RemediationTerminationPending && L.Terminal(OnSettleStep(s, w, got).state)
    ensures LiveRows(OnSettleStep(s, w, got).attempts) == {}
  {
    hide FailJob, LiveRows, TruthfulGet, Rewrite;
  }

  lemma SettleDeletedCloses(s: World, w: nat, answer: DeleteAnswer)
    requires s.state == L.RemediationTerminationPending && L.Terminal(OnSettleDeleted(s, w, answer).state)
    ensures LiveRows(OnSettleDeleted(s, w, answer).attempts) == {}
  {
    hide FailJob, LiveRows, TruthfulDelete, Rewrite, Delete;
  }

  lemma ClosesOutcome(s: World, e: Event)
    requires e.SettleOutcome? || e.Finish?
    requires s.state == L.RemediationTerminationPending && L.Terminal(Effect(s, e).state)
    ensures LiveRows(Effect(s, e).attempts) == {}
  {
    hide Effect, OnSettleOutcome, OnFinish, LiveRows;
    FailureEffect(s, e);
    if e.SettleOutcome? {
      SettleOutcomeCloses(s, e.w);
    } else {
      FinishCloses(s, e.w, e.valid);
    }
  }

  lemma SettleOutcomeCloses(s: World, w: nat)
    requires s.state == L.RemediationTerminationPending && L.Terminal(OnSettleOutcome(s, w).state)
    ensures LiveRows(OnSettleOutcome(s, w).attempts) == {}
  {
    hide FailJob, LiveRows, L.Allowed;
  }

  lemma FinishCloses(s: World, w: nat, valid: bool)
    requires s.state == L.RemediationTerminationPending && L.Terminal(OnFinish(s, w, valid).state)
    ensures LiveRows(OnFinish(s, w, valid).attempts) == {}
  {
    hide FailJob, LiveRows, L.Allowed;
  }

  lemma ClosesCreating(s: World, e: Event)
    requires e.RecordRefusal? || e.RecordUnknown? || e.Build?
    requires s.state == L.RemediationTerminationPending && L.Terminal(Effect(s, e).state)
    ensures LiveRows(Effect(s, e).attempts) == {}
  {
    hide FailJob, LiveRows, Delete, TruthfulDelete;
  }

  lemma AttachStaysOpen(s: World, e: Event)
    requires e.Attach? || e.DeleteOrphan? || e.StartReconcile?
    requires s.state == L.RemediationTerminationPending
    ensures !L.Terminal(Effect(s, e).state)
  {
    hide Delete, TruthfulDelete;
  }

  lemma StartStaysOpen(s: World, e: Event)
    requires e.Evaluate? || e.Admit? || e.PipelineMove? || e.PipelineFail?
    requires s.state == L.RemediationTerminationPending
    ensures !L.Terminal(Effect(s, e).state)
  {
    hide FailJob;
  }

  lemma DispatchKeepsState(s: World, e: Event)
    requires e.Dispatch?
    ensures Effect(s, e).state == s.state
  {
    hide RetainedRows, NewestActiveIsTriage, Select;
  }

  lemma ClosesPolling(s: World, e: Event)
    requires e.BlockUnmatched? || e.RecordLost?
    requires s.state == L.RemediationTerminationPending && L.Terminal(Effect(s, e).state)
    ensures LiveRows(Effect(s, e).attempts) == {}
  {
    hide FailJob, LiveRows, TruthfulGet;
  }

  lemma PollsKeepState(s: World, e: Event)
    requires e.Search? || e.PollCheck? || e.PollAnswer?
    ensures Effect(s, e).state == s.state
  {
    hide L.Terminal, TruthfulGet, KnowsSession;
  }

  lemma AnswersKeepState(s: World, e: Event)
    requires e.TimeoutGet? || e.TimeoutDelete? || e.SweepTag? || e.TerminateOne? || e.Reread? || e.Abandon?
    ensures Effect(s, e).state == s.state
  {
    hide L.Terminal, TruthfulGet, TruthfulSweep, TruthfulDelete, Delete, Rewrite, KnowsSession;
  }

  lemma ParkStaysOpen(s: World, w: nat)
    requires s.state == L.RemediationTerminationPending
    ensures !L.Terminal(OnPark(s, w).state)
  {
    hide L.Allowed;
  }

  lemma IngestStaysOpen(s: World, w: nat)
    requires s.state == L.RemediationTerminationPending
    ensures !L.Terminal(OnIngest(s, w).state)
  {
    hide Rewrite, L.Allowed, Chosen;
  }

  lemma ParkIsEffect(s: World, e: Event)
    requires e.Park? || e.Ingest?
    ensures Effect(s, e) == if e.Park? then OnPark(s, e.w) else OnIngest(s, e.w)
  {
    hide OnPark, OnIngest;
  }

  lemma CloseOutEnds(s: World, w: nat, expired: bool, i: nat)
    requires Own(s, true) && HolderAt(s, w) && i < |s.attempts| && s.attempts[i].kind == Remediation && Owning(s.attempts[i])
    requires s.state == L.RemediationTerminationPending && L.Terminal(OnCloseOut(s, w, expired).state)
    ensures
      var t := OnCloseOut(s, w, expired);
      |t.attempts| == |s.attempts| && !Owning(t.attempts[i]) && RowQuiet(t, i)
  {
    hide Own, RowQuiet;
    AtProcess(s, w, true);
    var t := OnCloseOut(s, w, expired);
    assert s.processes[w].pc.attempt == i;
    QuietSame(s, t, i);
  }

  lemma CommitEnds(s: World, w: nat, i: nat)
    requires Own(s, true) && HolderAt(s, w) && i < |s.attempts| && Owning(s.attempts[i])
    requires s.state == L.RemediationTerminationPending && L.Terminal(OnTerminateCommit(s, w).state)
    ensures
      var t := OnTerminateCommit(s, w);
      |t.attempts| == |s.attempts| && !Owning(t.attempts[i]) && RowQuiet(t, i)
  {
    hide Own, RowQuiet, L.Allowed;
    var t := OnTerminateCommit(s, w);
    AtTermination(s, w, true);
    assert i in s.processes[w].pc.closed;
    QuietSame(s, t, i);
  }

  /** With searches that miss nothing: when a holder closes a case whose remediation waits for its
      termination, no sent attempt stays active; and where the end was confirmed, rather than the
      case failed, every remediation attempt is closed and nothing with its key works. */
  lemma RemediationClosesOnlyWhenInactive(config: Config, es: seq<Event>, n: nat, i: nat)
    requires SerialRun(config, es, true) && n < |es| && WorkerOf(es[n]).Some?
    requires At(config, es, n).state == L.RemediationTerminationPending && L.Terminal(At(config, es, n + 1).state)
    requires i < |At(config, es, n).attempts| && At(config, es, n).attempts[i].kind == Remediation
    requires Owning(At(config, es, n).attempts[i])
    ensures i < |At(config, es, n + 1).attempts|
    ensures !(Active(At(config, es, n + 1).attempts[i]) && At(config, es, n + 1).attempts[i].sent)
    ensures es[n].CloseOut? || es[n].TerminateCommit? ==>
              !Owning(At(config, es, n + 1).attempts[i]) && RowQuiet(At(config, es, n + 1), i)
  {
    hide Next, Effect, Own, Inv, ExactSearch, At, Patient, RowQuiet, Serial, LiveRows;
    var s, t, e := At(config, es, n), At(config, es, n + 1), es[n];
    AtNext(config, es, n);
    RunOwns(config, es, n, true);
    NextIs(s, e);
    if HolderAt(s, WorkerOf(e).value) {
      RowsRemain(s, e);
      if e.CloseOut? {
        EffectIsCommit(s, e);
        CloseOutEnds(s, e.w, e.expired, i);
      } else if e.TerminateCommit? {
        EffectIsCommit(s, e);
        CommitEnds(s, e.w, i);
      } else {
        ClosesByFailure(s, e);
        NoLiveRow(t, i);
      }
    } else {
      EffectAssists(s, e, true);
    }
  }

  lemma NoLiveRow(s: World, i: nat)
    requires LiveRows(s.attempts) == {} && i < |s.attempts|
    ensures !(Active(s.attempts[i]) && s.attempts[i].sent)
  {
    assert i !in LiveRows(s.attempts);
  }
}
