/** What a cancel that closes the case at once leaves at work: exactly what works already, and what
    a process that is bound to create an attempt will create. */
module SessionAftermath {
  import opened Wrappers
  import opened Tags
  import opened SessionModel
  import opened SessionProtocol
  import opened SessionSafety
  import opened SessionOwnership
  import opened SessionSharing
  import opened SessionHandover
  import opened SessionOrphan
  import opened SessionAccount
  import opened SessionCancel
  import L = Lifecycle
  import S = Status

  /** The process will make a POST, whatever becomes of the case. */
  predicate Starts(s: World, p: Process) { Holder(p) && (Creating(s, p) || p.pc.Posting?) }

  /** A closed case in which nothing works and nobody starts anything. */
  ghost predicate Still(s: World) {
    && Dead(s.state) && !SomethingWorks(s)
    && forall w <- s.processes :: !Starts(s, s.processes[w])
  }

  // ------------------------------------------------------------------ the remote and the case

  lemma DeadStays(s: World, e: Event)
    requires Dead(s.state)
    ensures Effect(s, e).state == s.state
  {
    hide Effect;
    EffectFollows(s, e);
  }

  lemma NothingStirs(s: World, t: World)
    requires SessionsAge(s.sessions, t.sessions) && !SomethingWorks(s)
    ensures !SomethingWorks(t)
  {
    forall x <- t.sessions ensures t.sessions[x].phase != Working { assert Aged(s.sessions[x], t.sessions[x]); }
  }

  // ------------------------------------------------------------------ a step of the holder

  /** Program points on the way to a POST. */
  predicate OnTheWay(pc: Pc) {
    pc.Dispatching? || pc.Entered? || pc.Settling? || pc.SettleDelete? || pc.Inserting? || pc.Building? || pc.Posting?
  }

  lemma AsideStartsNothing(s: World, p: Process)
    requires !OnTheWay(p.pc)
    ensures !Starts(s, p)
  {}

  /** The process ends, or goes to a point that is not on the way. */
  predicate Leaves(s: World, t: World, w: nat) { w in t.processes && w in s.processes ==> !OnTheWay(t.processes[w].pc) }

  lemma LeavesCreated(s: World, e: Event, w: nat)
    requires Actor(e) == Some(w) && w in s.processes && Effect(s, e) != s
    requires e.Attach? || e.DeleteOrphan? || e.RecordRefusal? || e.BlockUnmatched?
    ensures Leaves(s, Effect(s, e), w)
  {
    hide FailJob, L.Allowed, CanMove, SetRow, AfterDelete, TruthfulDelete;
  }

  lemma LeavesReconcile(s: World, e: Event, w: nat)
    requires Actor(e) == Some(w) && w in s.processes && Effect(s, e) != s
    requires e.RecordUnknown? || e.StartReconcile? || e.Search?
    ensures Leaves(s, Effect(s, e), w)
  {
    hide FailJob, L.Allowed, CanMove, SetRow, AfterDelete, TruthfulDelete;
  }

  lemma LeavesPolling(s: World, e: Event, w: nat)
    requires Actor(e) == Some(w) && w in s.processes && Effect(s, e) != s
    requires e.PollCheck? || e.PollAnswer? || e.RecordLost?
    ensures Leaves(s, Effect(s, e), w)
  {
    hide FailJob, L.Allowed, CanMove, TruthfulGet, SetRow;
  }

  lemma LeavesOutcome(s: World, e: Event, w: nat)
    requires Actor(e) == Some(w) && w in s.processes && Effect(s, e) != s
    requires e.SettleOutcome?
    ensures Leaves(s, Effect(s, e), w)
  {
    hide FailJob, L.Allowed, CanMove, SetRow;
  }

  lemma LeavesFinish(s: World, e: Event, w: nat)
    requires Actor(e) == Some(w) && w in s.processes && Effect(s, e) != s
    requires e.Finish?
    ensures Leaves(s, Effect(s, e), w)
  {
    hide FailJob, L.Allowed, CanMove, SetRow;
  }

  lemma LeavesTimeout(s: World, e: Event, w: nat)
    requires Actor(e) == Some(w) && w in s.processes && Effect(s, e) != s
    requires e.TimeoutGet?
    ensures Leaves(s, Effect(s, e), w)
  {
    hide FailJob, L.Allowed, CanMove, SetRow, TruthfulGet, TruthfulDelete, AfterDelete;
  }

  lemma LeavesDelete(s: World, e: Event, w: nat)
    requires Actor(e) == Some(w) && w in s.processes && Effect(s, e) != s
    requires e.TimeoutDelete? || e.Park?
    ensures Leaves(s, Effect(s, e), w)
  {
    hide FailJob, L.Allowed, CanMove, SetRow, TruthfulGet, TruthfulDelete, AfterDelete;
  }

  lemma LeavesClosing(s: World, e: Event, w: nat)
    requires Actor(e) == Some(w) && w in s.processes && Effect(s, e) != s
    requires e.SweepTag? || e.CloseOut?
    ensures Leaves(s, Effect(s, e), w)
  {
    hide FailJob, L.Allowed, CanMove, TruthfulGet, TruthfulDelete, TruthfulSweep, AfterDelete, AfterSweep, SetRow;
  }

  lemma LeavesList(s: World, e: Event, w: nat)
    requires Actor(e) == Some(w) && w in s.processes && Effect(s, e) != s
    requires e.TerminateOne? || e.Reread? || e.PipelineFail?
    ensures Leaves(s, Effect(s, e), w)
  {
    hide FailJob, L.Allowed, CanMove, TruthfulGet, TruthfulDelete, TruthfulSweep, AfterDelete, AfterSweep, Rewrite, Chosen, SetRow;
  }

  lemma LeavesCommit(s: World, e: Event, w: nat)
    requires Actor(e) == Some(w) && w in s.processes && Effect(s, e) != s
    requires e.TerminateCommit? || e.Abandon?
    ensures Leaves(s, Effect(s, e), w)
  {
    hide FailJob, L.Allowed, CanMove, SetRow, Rewrite, Chosen;
  }

  lemma LeavesIngest(s: World, e: Event, w: nat)
    requires Actor(e) == Some(w) && w in s.processes && Effect(s, e) != s
    requires e.Ingest?
    ensures Leaves(s, Effect(s, e), w)
  {
    hide FailJob, L.Allowed, CanMove, SetRow, Rewrite, Chosen;
  }

  /** The steps that admit a case or move it on are rolled back: the case is closed. */
  lemma LeavesStart(s: World, e: Event, w: nat)
    requires Dead(s.state) && Actor(e) == Some(w) && w in s.processes && Effect(s, e) != s
    requires e.Evaluate? || e.Admit? || e.PipelineMove?
    ensures Leaves(s, Effect(s, e), w)
  {
    DeadEnd(s, w, L.EligibilityEvaluated);
    DeadEnd(s, w, L.TriageCreateIntent);
    DeadEnd(s, w, L.PolicyRejected);
  }

  // The steps on the way.

  lemma DispatchStartsNothing(s: World, w: nat, pick: nat)
    requires w in s.processes && Holder(s.processes[w]) && !Starts(s, s.processes[w])
    ensures OnDispatch(s, w, pick) == s || (w in OnDispatch(s, w, pick).processes ==> !Starts(OnDispatch(s, w, pick), OnDispatch(s, w, pick).processes[w]))
  {
    hide OnDispatch, DispatchCreates, EntryCreates;
    var t := OnDispatch(s, w, pick);
    DispatchOutcome(s, w, pick);
    if t != s && w in t.processes {
      var pc := t.processes[w].pc;
      if pc.Entered? {
        SameEntry(t, s);
        EntryIsOff(s, w, pick);
      }
    }
  }

  /** A run that is entered settles the earlier attempts first, or creates nothing. */
  lemma EnterOutcome(s: World, w: nat, granted: bool)
    requires w in s.processes
    ensures
      var t := OnEnter(s, w, granted);
      || t == s || Leaves(s, t, w)
      || (s.processes[w].pc.Entered? && NewestActive(s.attempts, s.processes[w].pc.kind, |s.attempts|).None? &&
          NextOrdinal(s.attempts, s.processes[w].pc.kind) <= s.config.maxAttempts &&
          t == Goto(s, w, EntryPlan(s, s.processes[w].pc.kind)))
  {
    hide FailJob, CanMove, NextOrdinal, NewestActive, Select;
  }

  lemma EnterStartsNothing(s: World, w: nat, granted: bool)
    requires w in s.processes && Holder(s.processes[w]) && !Starts(s, s.processes[w])
    ensures OnEnter(s, w, granted) == s || (w in OnEnter(s, w, granted).processes ==> !Starts(OnEnter(s, w, granted), OnEnter(s, w, granted).processes[w]))
  {
    hide NewestActive, NextOrdinal, OnEnter, EntryCreates, DispatchCreates, Select;
    var t := OnEnter(s, w, granted);
    EnterOutcome(s, w, granted);
    if t != s && w in t.processes {
      if Leaves(s, t, w) { AsideStartsNothing(t, t.processes[w]); } else { PlanStops(s, w); }
    }
  }

  lemma SettleStepStartsNothing(s: World, w: nat, got: GetAnswer)
    requires w in s.processes && Holder(s.processes[w]) && !Starts(s, s.processes[w])
    ensures OnSettleStep(s, w, got) == s || (w in OnSettleStep(s, w, got).processes ==> !Starts(OnSettleStep(s, w, got), OnSettleStep(s, w, got).processes[w]))
  {
    hide OnSettleStep, FailJob, CancelledRows, Admissible, DispatchCreates, EntryCreates;
    SettleStepOutcome(s, w, got);
    if OnSettleStep(s, w, got) != s {
      var Settling(kind, n, todo, closed) := s.processes[w].pc;
      var bad := StopsAhead(s, w);
      assert todo == [todo[0]] + todo[1..];
      if bad != todo[0] { assert bad in todo[1..]; }
    }
  }

  lemma SettleDeletedStartsNothing(s: World, w: nat, answer: DeleteAnswer)
    requires w in s.processes && Holder(s.processes[w]) && !Starts(s, s.processes[w])
    ensures OnSettleDeleted(s, w, answer) == s || (w in OnSettleDeleted(s, w, answer).processes ==> !Starts(OnSettleDeleted(s, w, answer), OnSettleDeleted(s, w, answer).processes[w]))
  {
    hide FailJob, CancelledRows, Admissible, DispatchCreates, EntryCreates, Delete, TruthfulDelete;
  }

  /** The other steps on the way take place only when the process starts something. */
  lemma WayIsClosed(s: World, e: Event, w: nat)
    requires w in s.processes && Holder(s.processes[w]) && !Starts(s, s.processes[w]) && Actor(e) == Some(w)
    requires e.SettleCommit? || e.Insert? || e.Build? || e.SendPost?
    ensures Effect(s, e) == s
  {
    hide DispatchCreates, EntryCreates;
  }

  // ------------------------------------------------------------------ every step

  predicate StartsNothing(t: World, w: nat) { w in t.processes ==> !Starts(t, t.processes[w]) }

  lemma WayEffect(s: World, e: Event)
    ensures e.Dispatch? ==> Effect(s, e) == OnDispatch(s, e.w, e.pick)
    ensures e.Enter? ==> Effect(s, e) == OnEnter(s, e.w, e.granted)
    ensures e.SettleStep? ==> Effect(s, e) == OnSettleStep(s, e.w, e.got)
    ensures e.SettleDeleted? ==> Effect(s, e) == OnSettleDeleted(s, e.w, e.answer)
  {
    hide OnDispatch, OnEnter, OnSettleStep, OnSettleDeleted;
  }

  lemma HolderStartsNothing(s: World, e: Event, w: nat)
    requires Dead(s.state) && w in s.processes && Holder(s.processes[w]) && !Starts(s, s.processes[w])
    requires Actor(e) == Some(w) && !e.ClaimCase? && !e.OperatorReconcile? && Effect(s, e) != s
    ensures StartsNothing(Effect(s, e), w)
  {
    hide Effect, Starts, Leaves, OnDispatch, OnEnter, OnSettleStep, OnSettleDeleted;
    WayEffect(s, e);
    match e
    case Dispatch(_, pick) => DispatchStartsNothing(s, w, pick);
    case Enter(_, granted) => EnterStartsNothing(s, w, granted);
    case SettleStep(_, got) => SettleStepStartsNothing(s, w, got);
    case SettleDeleted(_, answer) => SettleDeletedStartsNothing(s, w, answer);
    case SettleCommit(_) => WayIsClosed(s, e, w);
    case Insert(_, _, _) => WayIsClosed(s, e, w);
    case Build(_, _) => WayIsClosed(s, e, w);
    case SendPost(_, _, _) => WayIsClosed(s, e, w);
    case _ =>
      OffTheWay(s, e, w);
      LeftStartsNothing(s, Effect(s, e), w);
  }

  lemma LeftStartsNothing(s: World, t: World, w: nat)
    requires w in s.processes && Leaves(s, t, w)
    ensures StartsNothing(t, w)
  {}

  lemma OffTheWay(s: World, e: Event, w: nat)
    requires Dead(s.state) && w in s.processes && Actor(e) == Some(w) && !e.ClaimCase? && !e.OperatorReconcile? && Effect(s, e) != s
    requires !e.Dispatch? && !e.Enter? && !e.SettleStep? && !e.SettleDeleted? && !e.SettleCommit? && !e.Insert? && !e.Build? && !e.SendPost?
    ensures Leaves(s, Effect(s, e), w)
  {
    hide Effect, Leaves;
    match e
    case Evaluate(_) => LeavesStart(s, e, w);
    case Admit(_, _) => LeavesStart(s, e, w);
    case PipelineMove(_, _, _) => LeavesStart(s, e, w);
    case PipelineFail(_) => LeavesList(s, e, w);
    case Attach(_) => LeavesCreated(s, e, w);
    case DeleteOrphan(_, _) => LeavesCreated(s, e, w);
    case RecordRefusal(_) => LeavesCreated(s, e, w);
    case RecordUnknown(_) => LeavesReconcile(s, e, w);
    case StartReconcile(_) => LeavesReconcile(s, e, w);
    case Search(_, _) => LeavesReconcile(s, e, w);
    case BlockUnmatched(_) => LeavesCreated(s, e, w);
    case PollCheck(_, _) => LeavesPolling(s, e, w);
    case PollAnswer(_, _) => LeavesPolling(s, e, w);
    case RecordLost(_) => LeavesPolling(s, e, w);
    case SettleOutcome(_) => LeavesOutcome(s, e, w);
    case Finish(_, _) => LeavesFinish(s, e, w);
    case TimeoutGet(_, _) => LeavesTimeout(s, e, w);
    case TimeoutDelete(_, _) => LeavesDelete(s, e, w);
    case Park(_) => LeavesDelete(s, e, w);
    case SweepTag(_, _) => LeavesClosing(s, e, w);
    case CloseOut(_, _) => LeavesClosing(s, e, w);
    case TerminateOne(_, _, _) => LeavesList(s, e, w);
    case TerminateCommit(_) => LeavesCommit(s, e, w);
    case Reread(_, _) => LeavesList(s, e, w);
    case Ingest(_) => LeavesIngest(s, e, w);
    case Abandon(_) => LeavesCommit(s, e, w);
  }

  lemma StepsParts(s: World, t: World, w: nat)
    requires Steps(s, t, w, false)
    ensures SessionsAge(s.sessions, t.sessions)
    ensures t.processes == s.processes - {w} || (w in t.processes && t.processes == s.processes[w := t.processes[w]])
  {
    hide RowStep, RowTrace, SingleOwner, ProcessOk;
  }

  lemma HolderStills(s: World, e: Event, w: nat)
    requires AllOk(s) && Still(s) && w in s.processes && Holder(s.processes[w])
    requires Actor(e) == Some(w) && !e.ClaimCase? && !e.OperatorReconcile? && Effect(s, e) != s
    ensures Still(Effect(s, e))
  {
    hide Effect, Inv, Own, KeysOk, Starts, SomethingWorks, SessionsAge, Steps;
    var t := Effect(s, e);
    DeadStays(s, e);
    HolderStartsNothing(s, e, w);
    if e.Insert? || e.SendPost? {
      WayIsClosed(s, e, w);
    } else {
      NextStays(s, e);
      EffectSteps(s, e, false);
      StepsParts(s, t, w);
      NothingStirs(s, t);
      forall v <- t.processes ensures !Starts(t, t.processes[v]) {
        if v != w { OthersHoldNothing(s, v, w); NoHolderNoStart(t, s.processes[v]); }
      }
    }
  }

  lemma OthersHoldNothing(s: World, v: nat, w: nat)
    requires AllOk(s) && v in s.processes && w in s.processes && v != w && Holder(s.processes[w])
    ensures !Holder(s.processes[v])
  {
    hide Inv, Own, KeysOk;
    AtTriaging(s, false);
  }

  lemma NoHolderNoStart(s: World, p: Process)
    requires !Holder(p)
    ensures !Starts(s, p)
  {}

  /** An operator's request leaves the outline of the rows alone, and so the holder's prospects. */
  lemma RequestStills(s: World, e: Event, w: nat)
    requires AllOk(s) && Still(s) && w in s.processes && !Holder(s.processes[w])
    requires Actor(e) == Some(w) && !e.ClaimCase? && !e.OperatorReconcile? && Effect(s, e) != s
    ensures Still(Effect(s, e))
  {
    hide Effect, Own, Inv, KeysOk, Starts, Assists, SomethingWorks;
    DeadStays(s, e);
    ConfigStays(s, e);
    if e.Insert? || e.SendPost? {
      RequestInsertsNothing(s, e, w);
    } else {
      EffectAssists(s, e, false);
      AssistsStill(s, Effect(s, e), w);
    }
  }

  lemma SameStarts(s: World, t: World, p: Process)
    requires SameOutline(s, t)
    ensures Starts(t, p) == Starts(s, p)
  {
    hide DispatchCreates, EntryCreates;
    SameLateness(s, t, p);
    if OnTheWay(p.pc) { assert !Reviving(s, p) && !Reviving(t, p); }
  }

  lemma AssistsStill(s: World, t: World, w: nat)
    requires Still(s) && Assists(s, t, w) && t.config == s.config && t.state == s.state
    ensures Still(t)
  {
    assert SameOutline(s, t) by { AssistsOutline(s, t, w); }
    hide Starts, Beside, SameOutline, OperatorOk;
    assert t.sessions == s.sessions by { AssistsRemote(s, t, w); }
    forall v <- t.processes ensures !Starts(t, t.processes[v]) {
      if v != w { SameStarts(s, t, s.processes[v]); } else { NoHolderNoStart(t, t.processes[v]); }
    }
  }

  lemma AssistsRemote(s: World, t: World, w: nat)
    requires Assists(s, t, w)
    ensures t.sessions == s.sessions
  {
    hide OperatorOk;
  }

  lemma AssistsOutline(s: World, t: World, w: nat)
    requires Dead(s.state) && Assists(s, t, w) && t.config == s.config && t.state == s.state
    ensures SameOutline(s, t)
  {
    hide OperatorOk;
    forall i | 0 <= i < |s.attempts|
      ensures t.attempts[i].kind == s.attempts[i].kind && t.attempts[i].status == s.attempts[i].status
      ensures t.attempts[i].ordinal == s.attempts[i].ordinal && Admissible(t.attempts[i]) == Admissible(s.attempts[i])
    {
      assert Noted(s.attempts[i], t.attempts[i]);
    }
  }

  /** What happens around the processes: the remote ages; whoever claims a closed case has nothing to do. */
  lemma AroundStills(s: World, e: Event)
    requires Still(s) && (e.RemoteStops? || e.RemoteVanishes? || e.OperatorCancel? || e.OperatorRetry? || e.ApprovalMove?)
    ensures Still(Effect(s, e))
  {
    hide Effect, Starts, SomethingWorks, SessionsAge, SameOutline;
    var t := Effect(s, e);
    AroundSealed(s, e);
    AroundIsGentle(s, e);
    NothingStirs(s, t);
    SameRowsSameOutline(s, t);
    forall v <- t.processes ensures !Starts(t, t.processes[v]) { SameStarts(s, t, s.processes[v]); }
  }

  lemma SameRowsSameOutline(s: World, t: World)
    requires t.attempts == s.attempts && t.config == s.config
    ensures SameOutline(s, t)
  {}

  lemma ArrivalStills(s: World, e: Event)
    requires Still(s) && (e.ClaimCase? || e.OperatorReconcile? || e.Crash?)
    ensures Still(Effect(s, e))
  {
    hide Starts, Claimable, SameOutline;
    var t := Effect(s, e);
    SameRowsSameOutline(s, t);
    forall v <- t.processes ensures !Starts(t, t.processes[v]) {
      if v in s.processes && t.processes[v] == s.processes[v] { SameStarts(s, t, s.processes[v]); }
      else { NewcomerStartsNothing(t, t.processes[v]); }
    }
  }

  lemma NewcomerStartsNothing(t: World, p: Process)
    requires Dead(p.mem) && p.pc.Dispatching?
    ensures !Starts(t, p)
  {
    hide EntryCreates;
  }

  lemma NextIsStill(s: World, e: Event)
    requires AllOk(s) && Still(s)
    ensures Still(Next(s, e))
  {
    hide AllOk, Still, Next, Effect, Patient;
    NextIs(s, e);
    if Next(s, e) == s {
    } else if e.ClaimCase? || e.OperatorReconcile? || e.Crash? {
      ArrivalStills(s, e);
    } else if Actor(e).None? {
      AroundStills(s, e);
    } else {
      var w := Actor(e).value;
      if w !in s.processes { Absent(s, e, w); }
      else if Holder(s.processes[w]) { HolderStills(s, e, w); }
      else { RequestStills(s, e, w); }
    }
  }

  lemma {:induction false} RunIsStill(s: World, es: seq<Event>)
    requires AllOk(s) && Still(s) && SerialFrom(s, es)
    ensures AllOk(Run(s, es)) && Still(Run(s, es))
  {
    if es != [] {
      hide AllOk, Still, Next, Serial, SerialFrom;
      var n := |es| - 1;
      SerialPrefix(s, es);
      RunIsStill(s, es[..n]);
      NextIsOk(Run(s, es[..n]), es[n]);
      NextIsStill(Run(s, es[..n]), es[n]);
    }
  }

  // ------------------------------------------------------------------ exactly when

  lemma StillForever(t: World)
    requires AllOk(t) && Still(t)
    ensures !CanLeak(t, WorkingSession)
  {
    hide AllOk, Starts;
    forall more | SerialFrom(t, more) ensures !Leaked(Run(t, more), WorkingSession) { RunIsStill(t, more); }
  }

  /** The cancel only changes the state. */
  lemma CancelLeaves(s: World, t: World)
    requires t == s.(state := t.state)
    ensures SomethingWorks(t) == SomethingWorks(s) && forall w <- s.processes :: Starts(t, s.processes[w]) == Starts(s, s.processes[w])
  {
    hide Starts, SameOutline;
    SameRowsSameOutline(s, t);
    forall w <- s.processes ensures Starts(t, s.processes[w]) == Starts(s, s.processes[w]) { SameStarts(s, t, s.processes[w]); }
  }

  /** A process at the POST has a sent attempt, which a cancel that closes at once has not seen. */
  lemma NobodyPosts(s: World, w: nat)
    requires Inv(s) && Own(s, false) && w in s.processes && Starts(s, s.processes[w])
    requires forall i | 0 <= i < |s.attempts| :: !SentOwner(s.attempts[i])
    ensures Holder(s.processes[w]) && Creating(s, s.processes[w])
  {
    hide Inv, Own, Creating, SentOwner;
    if s.processes[w].pc.Posting? { PosterOwnsSent(s, w); }
  }

  lemma PosterOwnsSent(s: World, w: nat)
    requires Inv(s) && Own(s, false) && w in s.processes && Holder(s.processes[w]) && s.processes[w].pc.Posting?
    ensures s.processes[w].pc.attempt < |s.attempts| && SentOwner(s.attempts[s.processes[w].pc.attempt])
  {
    hide Inv, Own;
    PosterOwns(s, w);
    PosterHasSent(s, w);
  }

  lemma PosterHasSent(s: World, w: nat)
    requires Inv(s) && w in s.processes && s.processes[w].pc.Posting?
    ensures s.processes[w].pc.attempt < |s.attempts| && s.attempts[s.processes[w].pc.attempt].sent
  {
    hide RowsOk, PostsOk, PlansOk;
    assert CreatorOk(s, s.processes[w]);
  }

  lemma ClosingKeepsOwn(s: World, to: L.CaseState)
    requires Own(s, false) && Dead(to) && L.Allowed(s.state, to, false) && forall w <- s.processes :: !HoldsCase(s.processes[w])
    ensures Own(s.(state := to), false)
  {
    hide Own, HoldsCase, L.Allowed;
    if L.InRemediation(s.state) { L.RemediationIsClosed(s.state, to, false); }
    if s.state == L.TerminationPending || s.state == L.Cancelled { PendingEndsCancelled(s.state, to); }
    AroundKeeps(s, s.(state := to), false);
  }

  lemma PendingEndsCancelled(a: L.CaseState, b: L.CaseState)
    requires L.Allowed(a, b, false) && Dead(b) && (a == L.TerminationPending || a == L.Cancelled)
    ensures b == L.Cancelled
  {}

  lemma StateIsNotCounted(s: World, to: L.CaseState)
    ensures Inv(s) ==> Inv(s.(state := to))
    ensures KeysOk(s) ==> KeysOk(s.(state := to))
  {
    hide KeyOf;
    if Inv(s) { QuietKeeps(s, s.(state := to)); }
  }

  /** Whoever closes the case, whatever it has read before - the cancel of an operator that has read
      the attempts long ago included: the closed case can be left with a session at work exactly if at
      the moment it is closed some session works or some holder will make a POST. */
  lemma ClosingLeavesWorkExactly(config: Config, es: seq<Event>, to: L.CaseState)
    requires SerialRun(config, es, false)
    requires
      var s := Run(Initial(config), es);
      Dead(to) && L.Allowed(s.state, to, false) && forall w <- s.processes :: !HoldsCase(s.processes[w])
    ensures
      var s := Run(Initial(config), es);
      CanLeak(s.(state := to), WorkingSession) <==> SomethingWorks(s) || exists w <- s.processes :: Starts(s, s.processes[w])
  {
    hide Inv, Own, KeysOk, HoldsCase, Starts, SomethingWorks, Initial, CanLeak, L.Allowed;
    var s := Run(Initial(config), es);
    var t := s.(state := to);
    OwnsAll(config, es);
    RunKeepsKeys(config, es);
    CancelLeaves(s, t);
    assert AllOk(t) by { ClosingKeepsOwn(s, to); StateIsNotCounted(s, to); }
    if SomethingWorks(s) {
      LeaksNow(t, WorkingSession);
    } else if w :| w in s.processes && Starts(s, s.processes[w]) {
      StarterWorks(t, w);
    } else {
      assert Still(t);
      StillForever(t);
    }
  }

  lemma StarterWorks(t: World, w: nat)
    requires AllOk(t) && Dead(t.state) && w in t.processes && Starts(t, t.processes[w])
    requires forall v <- t.processes :: !HoldsCase(t.processes[v])
    ensures CanLeak(t, WorkingSession)
  {
    hide AllOk, CanLeak, Creating, HoldsCase;
    assert Shut(t, w);
    hide Shut;
    if t.processes[w].pc.Posting? { PostingWorks(t, w); } else { CreatingLeaks(t, w, WorkingSession); }
  }

  lemma CancelMoves(s: World)
    requires !L.Terminal(s.state) && L.Terminal(Next(s, OperatorCancel).state)
    ensures L.Allowed(s.state, Next(s, OperatorCancel).state, false)
  {
    hide L.Allowed, HoldsCase, MayOwn;
    EffectOf(s, OperatorCancel);
    hide Effect;
  }

  /** An operator's cancel of a live case that closes it at once can leave the closed case with a
      session at work exactly if some session works at that moment - which `SessionAccount` accounts
      for, as no sent attempt owns it - or some holder is bound to create one. */
  lemma CancelLeavesWorkExactly(config: Config, es: seq<Event>)
    requires SerialRun(config, es, false)
    requires
      var s := Run(Initial(config), es);
      !L.Terminal(s.state) && L.Terminal(Next(s, OperatorCancel).state)
    ensures
      var s := Run(Initial(config), es);
      CanLeak(Next(s, OperatorCancel), WorkingSession) <==>
      SomethingWorks(s) || exists w <- s.processes :: Holder(s.processes[w]) && Creating(s, s.processes[w])
  {
    hide Next, Inv, Own, HoldsCase, Creating, SomethingWorks, SentOwner, Initial, CanLeak, L.Allowed, SerialRun;
    var s := Run(Initial(config), es);
    OwnsAll(config, es);
    CancelSees(s);
    CancelMoves(s);
    ClosingLeavesWorkExactly(config, es, Next(s, OperatorCancel).state);
    if w :| w in s.processes && Starts(s, s.processes[w]) { NobodyPosts(s, w); }
  }

  /** No sent attempt owns what works when a cancel closes the case: it was let go of before. */
  lemma WorkAtTheCancelWasLetGo(config: Config, es: seq<Event>, x: nat)
    requires SerialRun(config, es, false)
    requires
      var s := Run(Initial(config), es);
      !L.Terminal(s.state) && L.Terminal(Next(s, OperatorCancel).state) && WorksOn(s, x)
    ensures
      var s := Run(Initial(config), es);
      exists i | 0 <= i < |s.attempts| && s.attempts[i].key == s.sessions[x].tag :: exists n: nat :: LetsGoAt(config, es, n, i)
  {
    hide Next, LetsGoAt, Inv, Own, Initial, SerialRun;
    var s := Run(Initial(config), es);
    CancelSees(s);
    EveryWorkingSessionIsAccountedFor(config, es, x);
    OwnsAll(config, es);
    var i :| 0 <= i < |s.attempts| && s.attempts[i].key == s.sessions[x].tag &&
             (Owning(s.attempts[i]) || exists n: nat :: LetsGoAt(config, es, n, i));
    if Owning(s.attempts[i]) { WorkingWasSent(s, i, x); }
    assert exists n: nat :: LetsGoAt(config, es, n, i);
  }

  lemma WorkingWasSent(s: World, i: nat, x: nat)
    requires Inv(s) && Own(s, false) && i < |s.attempts| && Owning(s.attempts[i]) && WorksOn(s, x) && s.sessions[x].tag == s.attempts[i].key
    ensures SentOwner(s.attempts[i])
  {
    hide Own, Inv, RemoteOk;
    OwnData(s);
    if !s.attempts[i].sent { UnsentIsQuiet(s, i); }
  }
}
