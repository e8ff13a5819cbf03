/** How an attempt ends, and its case with it: each status in which an attempt comes to rest, and the
    exact steps that lead to it. The laws are about any world, so they hold at every event of every
    run, with any number of workers. */
module SessionEnds {
  import opened Wrappers
  import opened Tags
  import opened SessionModel
  import opened SessionProtocol
  import opened SessionIdle
  import L = Lifecycle
  import S = Status

  // ------------------------------------------------------------------ what lets a step be committed

  /** The case is where the process holds it, under its claim if it works under one. */
  predicate Held(s: World, w: nat)
    requires w in s.processes
  {
    s.state == s.processes[w].mem && (s.processes[w].fence.Some? ==> s.claimedBy == s.processes[w].fence)
  }

  /** Another process keeps the case's row locked. */
  predicate LockedOut(s: World, w: nat) { exists v <- s.processes :: v != w && HoldsCase(s.processes[v]) }

  /** The process can move the case to `to`: from where it holds it, and nobody has locked it. */
  predicate Commits(s: World, w: nat, to: L.CaseState)
    requires w in s.processes
  {
    Held(s, w) && L.Allowed(s.state, to, false) && !LockedOut(s, w)
  }

  /** The process is at this point, about an attempt that exists. */
  predicate IsAt(s: World, w: nat, pc: Pc, i: nat) { w in s.processes && s.processes[w].pc == pc && i < |s.attempts| }

  lemma WaitsExactly(s: World, t: World, e: Event, w: nat)
    requires Actor(e) == Some(w) && w in s.processes && !HoldsCase(s.processes[w])
    requires w in t.processes ==> !HoldsCase(t.processes[w])
    ensures Waits(s, t, e) <==> t.state != s.state && LockedOut(s, w)
  {
    hide HoldsCase, Actor;
  }

  /** What the steps below do, once they go. */
  lemma EffectOf(s: World, e: Event)
    ensures e.Finish? ==> Effect(s, e) == OnFinish(s, e.w, e.valid) && Actor(e) == Some(e.w)
    ensures e.SettleOutcome? ==> Effect(s, e) == OnSettleOutcome(s, e.w) && Actor(e) == Some(e.w)
    ensures e.BlockUnmatched? ==> Effect(s, e) == OnBlockUnmatched(s, e.w) && Actor(e) == Some(e.w)
    ensures e.CloseOut? ==> Effect(s, e) == OnCloseOut(s, e.w, e.expired) && Actor(e) == Some(e.w)
  {
    hide OnFinish, OnSettleOutcome, OnBlockUnmatched, OnCloseOut;
  }

  lemma EffectOfFailure(s: World, e: Event)
    ensures e.Build? ==> Effect(s, e) == OnBuild(s, e.w, e.ok) && Actor(e) == Some(e.w)
    ensures e.RecordRefusal? ==> Effect(s, e) == OnRecordRefusal(s, e.w) && Actor(e) == Some(e.w)
    ensures e.RecordLost? ==> Effect(s, e) == OnRecordLost(s, e.w) && Actor(e) == Some(e.w)
  {
    hide OnBuild, OnRecordRefusal, OnRecordLost;
  }

  // ------------------------------------------------------------------ success

  /** The states from which an attempt of the kind may end well: while it runs, or while it is being
      terminated. */
  predicate MayEndWell(kind: Kind, state: L.CaseState) {
    state == PhaseOf(kind).running || state == PhaseOf(kind).terminationPending
  }

  lemma TriageDoor(from: L.CaseState)
    ensures L.Allowed(from, L.Triaged, false) <==> MayEndWell(Triage, from)
  {}

  lemma RemediationDoor(from: L.CaseState)
    ensures L.Allowed(from, L.OutputValidating, false) <==> MayEndWell(Remediation, from)
  {}

  /** The event commits a good end of attempt `i`: for triage its output is there and valid, and the
      case is still where the process holds it. */
  predicate EndsWell(s: World, e: Event, i: nat) {
    e.Finish? && IsAt(s, e.w, Finishing(i), i) && FitToEnd(s, e.w, e.valid, i) && !LockedOut(s, e.w)
  }

  predicate FitToEnd(s: World, w: nat, valid: bool, i: nat)
    requires w in s.processes && i < |s.attempts|
  {
    && (s.attempts[i].kind == Triage ==> valid && s.attempts[i].output)
    && Held(s, w) && MayEndWell(s.attempts[i].kind, s.state)
  }

  /** The state in which a good end leaves the case. */
  function After(kind: Kind): L.CaseState { if kind == Triage then L.AwaitingRemediationApproval else L.OutputValidating }

  /** The good end, apart from the lock. */
  lemma FinishIsGood(s: World, w: nat, valid: bool, i: nat)
    requires IsAt(s, w, Finishing(i), i) && FitToEnd(s, w, valid, i)
    ensures
      var t := OnFinish(s, w, valid);
      && t.attempts == s.attempts[i := s.attempts[i].(status := Succeeded)]
      && t.state == After(s.attempts[i].kind) != s.state && w !in t.processes
  {
    hide L.Allowed, FailJob;
    TriageDoor(s.state);
    RemediationDoor(s.state);
  }

  lemma FinishIsBad(s: World, w: nat, valid: bool, i: nat)
    requires IsAt(s, w, Finishing(i), i) && !FitToEnd(s, w, valid, i)
    ensures NoTurn(s, OnFinish(s, w, valid), Succeeded, L.AwaitingRemediationApproval)
  {
    hide L.Allowed, MayEndWell, NoTurn, FailJob, Lost, Stop, Moved, Goto;
    var a := s.attempts[i];
    TriageDoor(s.processes[w].mem);
    RemediationDoor(s.processes[w].mem);
    IdleSame(s, s, Succeeded, L.AwaitingRemediationApproval);
    IdleEnd(s, s, w, Abandoning, Succeeded, L.AwaitingRemediationApproval);
    IdleAny(s, w, i, a.(status := AttemptStatus.Failed, output := false), L.OutputValidating, Abandoning, Succeeded, L.AwaitingRemediationApproval);
  }

  lemma FinishesWell(s: World, e: Event, i: nat)
    requires EndsWell(s, e, i)
    ensures
      var t := Next(s, e);
      && t.attempts == s.attempts[i := s.attempts[i].(status := Succeeded)]
      && t.state == After(s.attempts[i].kind) && e.w !in t.processes
  {
    hide Effect, HoldsCase, LockedOut, Waits, OnFinish, FitToEnd;
    EffectOf(s, e);
    FinishIsGood(s, e.w, e.valid, i);
    WaitsExactly(s, Effect(s, e), e, e.w) by { Unlocked(Finishing(i), s.processes[e.w]); }
  }

  lemma FinishesBadly(s: World, w: nat, valid: bool, i: nat)
    requires IsAt(s, w, Finishing(i), i) && !EndsWell(s, Finish(w, valid), i)
    ensures NoTurn(s, Next(s, Finish(w, valid)), Succeeded, L.AwaitingRemediationApproval)
  {
    hide Effect, HoldsCase, LockedOut, Waits, OnFinish, FitToEnd, NoTurn;
    var e := Finish(w, valid);
    EffectOf(s, e);
    IdleSame(s, s, Succeeded, L.AwaitingRemediationApproval);
    if FitToEnd(s, w, valid, i) {
      FinishIsGood(s, w, valid, i);
      WaitsExactly(s, Effect(s, e), e, w) by { Unlocked(Finishing(i), s.processes[w]); }
    } else {
      FinishIsBad(s, w, valid, i);
    }
  }

  lemma Unlocked(pc: Pc, p: Process)
    requires p.pc == pc && !pc.Settling? && !pc.SettleDelete? && !pc.Rereading?
    ensures !HoldsCase(p)
  {}

  /** Exactly these events make an attempt succeed, and exactly those of triage make the case await an
      approval; both happen in one commit. */
  lemma SucceedsExactly(s: World, e: Event, i: nat)
    requires i < |s.attempts| && s.attempts[i].status != Succeeded
    ensures i < |Next(s, e).attempts| && (Next(s, e).attempts[i].status == Succeeded <==> EndsWell(s, e, i))
    ensures EndsWell(s, e, i) ==> Next(s, e).state == After(s.attempts[i].kind)
  {
    hide Next, Effect, Held, MayEndWell, LockedOut;
    if e.Finish? {
      if EndsWell(s, e, i) { FinishesWell(s, e, i); }
      else if IsAt(s, e.w, Finishing(i), i) { FinishesBadly(s, e.w, e.valid, i); }
      else { FinishElsewhere(s, e.w, e.valid, i); }
    } else {
      NextIdles(s, e, Succeeded, L.Triaged);
    }
  }

  /** An attempt that the process is not about does not succeed. */
  lemma FinishElsewhere(s: World, w: nat, valid: bool, i: nat)
    requires i < |s.attempts| && !IsAt(s, w, Finishing(i), i) && s.attempts[i].status != Succeeded
    ensures var t := Next(s, Finish(w, valid)); i < |t.attempts| && t.attempts[i].status != Succeeded
  {
    hide Effect, FailJob, Waits, L.Allowed;
    EffectOf(s, Finish(w, valid));
  }

  // ------------------------------------------------------------------ failure

  /** Another attempt may own a session at work. */
  predicate OthersLive(s: World, i: nat) {
    exists j | 0 <= j < |s.attempts| && j != i :: Active(s.attempts[j]) && s.attempts[j].sent
  }

  /** Where a failing job leaves the case: a closed one as it is, one with live attempts in its phase's
      termination state, any other failed. */
  function Fallen(s: World, w: nat, i: nat): L.CaseState
    requires w in s.processes
  {
    var mem := s.processes[w].mem;
    var phase := L.PhaseForState(mem);
    if L.Terminal(mem) || (OthersLive(s, i) && mem == phase.terminationPending) then s.state
    else if OthersLive(s, i) then phase.terminationPending
    else phase.failed
  }

  /** The failure can be committed: it leaves the case alone, or moves it from where it is held. */
  predicate MayFall(s: World, w: nat, i: nat)
    requires w in s.processes
  {
    var mem := s.processes[w].mem;
    || L.Terminal(mem) || (OthersLive(s, i) && mem == L.PhaseForState(mem).terminationPending)
    || Commits(s, w, Fallen(s, w, i))
  }

  /** The step with which a job fails for its attempt `i`: the request could not be built, the create
      was refused, the session is lost or has failed, or the triage output is missing or invalid. */
  predicate FailingStep(s: World, e: Event, i: nat) {
    match e
    case Build(w, ok) => !ok && IsAt(s, w, Building(i), i)
    case RecordRefusal(w) => IsAt(s, w, Refused(i), i)
    case RecordLost(w) => IsAt(s, w, SessionLost(i), i)
    case SettleOutcome(w) =>
      && w in s.processes && s.processes[w].pc.Settled? && s.processes[w].pc.attempt == i < |s.attempts|
      && s.processes[w].pc.disposition !in {S.Finished, S.WaitingForHuman}
    case Finish(w, valid) =>
      IsAt(s, w, Finishing(i), i) && s.attempts[i].kind == Triage && !(valid && s.attempts[i].output)
    case _ => false
  }

  /** The attempt as its failing job leaves it. */
  function FailedRow(a: Attempt, e: Event): Attempt {
    match e
    case Build(_, _) => a.(status := AttemptStatus.Failed, finished := true, createState := NotSent)
    case RecordRefusal(_) => a.(status := AttemptStatus.Failed, finished := true, createState := ApiError)
    case Finish(_, _) => a.(status := AttemptStatus.Failed, output := false)
    case _ => a.(status := AttemptStatus.Failed, finished := true)
  }

  lemma FailingEffect(s: World, e: Event, i: nat)
    requires FailingStep(s, e, i)
    ensures Actor(e).Some? && Actor(e).value in s.processes && !HoldsCase(s.processes[Actor(e).value])
    ensures i < |s.attempts| && Effect(s, e) == FailJob(s, SetRow(s, i, FailedRow(s.attempts[i], e)), Actor(e).value)
  {
    hide Effect, FailJob, Actor;
    EffectOf(s, e);
    EffectOfFailure(s, e);
  }

  /** A failing job either leaves its attempt failed and the case where a failure leaves it, or, when
      that cannot be committed, nothing changes. */
  lemma FailingStepFalls(s: World, e: Event, i: nat)
    requires FailingStep(s, e, i)
    ensures
      var t := Next(s, e);
      && Actor(e).Some? && Actor(e).value in s.processes && i < |s.attempts|
      && if MayFall(s, Actor(e).value, i) then
           && |t.attempts| == |s.attempts| && t.attempts[i] == FailedRow(s.attempts[i], e)
           && t.state == Fallen(s, Actor(e).value, i) && Actor(e).value !in t.processes
         else t.attempts == s.attempts && t.state == s.state
  {
    FailingEffect(s, e, i);
    hide Effect, HoldsCase, FailJob, LockedOut, MayFall, Fallen, Waits, FailingStep, Actor;
    var w := Actor(e).value;
    var changed := SetRow(s, i, FailedRow(s.attempts[i], e));
    FailJobFalls(s, changed, w, i);
    FallsOrStays(s, w, i);
    Abandoned(s, changed, w);
    WaitsExactly(s, FailJob(s, changed, w), e, w);
  }

  lemma Abandoned(s: World, changed: World, w: nat)
    requires w in s.processes && OnlyRows(s, changed)
    ensures var t := FailJob(s, changed, w); w in t.processes ==> !HoldsCase(t.processes[w])
  {
    hide FailJob;
  }

  /** An output that is missing or invalid, once committed, leaves the triage attempt failed and without
      an output, and fails its case; if that cannot be committed nothing changes. */
  lemma BadOutputFails(s: World, w: nat, valid: bool, i: nat)
    requires IsAt(s, w, Finishing(i), i) && s.attempts[i].kind == Triage && !(valid && s.attempts[i].output)
    ensures
      var t := Next(s, Finish(w, valid));
      if MayFall(s, w, i) then
        && |t.attempts| == |s.attempts| && t.attempts[i] == s.attempts[i].(status := AttemptStatus.Failed, output := false)
        && t.state == Fallen(s, w, i) && w !in t.processes
      else t.attempts == s.attempts && t.state == s.state
  {
    hide Next, MayFall, Fallen;
    FailingStepFalls(s, Finish(w, valid), i);
  }

  lemma FallsOrStays(s: World, w: nat, i: nat)
    requires w in s.processes
    ensures
      var mem := s.processes[w].mem;
      var parked := L.Terminal(mem) || (OthersLive(s, i) && mem == L.PhaseForState(mem).terminationPending);
      var moves := Held(s, w) && L.Allowed(s.state, Fallen(s, w, i), false);
      && (MayFall(s, w, i) <==> parked || (moves && !LockedOut(s, w)))
      && (parked ==> Fallen(s, w, i) == s.state) && (moves && !parked ==> Fallen(s, w, i) != s.state)
  {
    hide LockedOut, L.Allowed, L.PhaseForState, L.Terminal;
    NoLoop(s.processes[w].mem);
    Parking(s.processes[w].mem);
  }

  lemma Parking(state: L.CaseState)
    ensures L.PhaseForState(state).terminationPending != L.PhaseForState(state).failed
  {}

  /** What `fail_case` makes of a transaction that has ended attempt `i`, apart from the lock. */
  lemma FailJobFalls(s: World, changed: World, w: nat, i: nat)
    requires w in s.processes && OnlyRows(s, changed) && i < |s.attempts| && !Active(changed.attempts[i])
    requires forall j | 0 <= j < |s.attempts| && j != i :: changed.attempts[j] == s.attempts[j]
    ensures
      var t := FailJob(s, changed, w);
      var mem := s.processes[w].mem;
      if L.Terminal(mem) || (OthersLive(s, i) && mem == L.PhaseForState(mem).terminationPending) ||
         (Held(s, w) && L.Allowed(s.state, Fallen(s, w, i), false))
      then
        && |t.attempts| == |s.attempts| && t.attempts[i] == changed.attempts[i]
        && t.state == Fallen(s, w, i) && w !in t.processes
      else t.attempts == s.attempts && t.state == s.state
  {
    hide L.Allowed, L.PhaseForState, L.Terminal;
    OthersAreLive(s, i, changed);
  }

  lemma NoLoop(state: L.CaseState)
    ensures state == L.PhaseForState(state).failed ==> !L.Allowed(state, state, false)
  {
    if state in {L.Failed, L.RemediationFailed} { FailedIsLeft(state); } else { hide L.Allowed, L.InRemediation; }
  }

  lemma FailedIsLeft(state: L.CaseState)
    requires state in {L.Failed, L.RemediationFailed}
    ensures !L.Allowed(state, state, false)
  {}

  lemma OthersAreLive(s: World, i: nat, changed: World)
    requires i < |s.attempts| && |changed.attempts| == |s.attempts| && !Active(changed.attempts[i])
    requires forall j | 0 <= j < |s.attempts| && j != i :: changed.attempts[j] == s.attempts[j]
    ensures LiveRows(changed.attempts) != {} <==> OthersLive(s, i)
    ensures i !in LiveRows(changed.attempts)
  {
    if OthersLive(s, i) {
      var j :| 0 <= j < |s.attempts| && j != i && Active(s.attempts[j]) && s.attempts[j].sent;
      assert j in LiveRows(changed.attempts);
    }
    if j :| j in LiveRows(changed.attempts) { assert j != i; }
  }

  // ------------------------------------------------------------------ waiting for a human

  /** The step with which a job leaves its attempt `i` to a human: its session waits and has no output,
      or the search for it found none, or several. */
  predicate BlockingStep(s: World, e: Event, i: nat) {
    match e
    case SettleOutcome(w) =>
      && w in s.processes && s.processes[w].pc.Settled? && s.processes[w].pc.attempt == i < |s.attempts|
      && s.processes[w].pc.disposition == S.WaitingForHuman
    case BlockUnmatched(w) => IsAt(s, w, Unmatched(i), i)
    case _ => false
  }

  /** The attempt as it is left: an unmatched create stays unresolved until somebody vouches for it. */
  function BlockedRow(a: Attempt, e: Event): Attempt {
    if e.BlockUnmatched? then a.(status := Blocked, finished := true, createState := Unresolved, reason := OtherReason)
    else a.(status := Blocked, finished := true)
  }

  lemma BlockingEffect(s: World, e: Event, i: nat)
    requires BlockingStep(s, e, i)
    ensures Actor(e).Some? && Actor(e).value in s.processes && !HoldsCase(s.processes[Actor(e).value])
    ensures
      var w := Actor(e).value;
      i < |s.attempts| && Effect(s, e) == MoveAndStop(s, SetRow(s, i, BlockedRow(s.attempts[i], e)), w, PhaseOf(s.attempts[i].kind).humanBlocked)
  {
    hide Effect, MoveAndStop, Actor;
    EffectOf(s, e);
  }

  /** What a commit of one row with a move comes to: both, or nothing. */
  lemma MovesOrStays(s: World, e: Event, w: nat, i: nat, a: Attempt, to: L.CaseState)
    requires Actor(e) == Some(w) && w in s.processes && !HoldsCase(s.processes[w]) && i < |s.attempts|
    requires Effect(s, e) == MoveAndStop(s, SetRow(s, i, a), w, to)
    requires to != s.state || !L.Allowed(s.state, to, false)
    ensures
      var t := Next(s, e);
      if Commits(s, w, to) then t.attempts == s.attempts[i := a] && t.state == to && w !in t.processes
      else t.attempts == s.attempts && t.state == s.state
  {
    hide Effect, HoldsCase, LockedOut, Waits, L.Allowed, Actor, MoveAndStop;
    CommitMoves(s, w, i, a, to);
    WaitsExactly(s, Effect(s, e), e, w);
  }

  lemma CommitMoves(s: World, w: nat, i: nat, a: Attempt, to: L.CaseState)
    requires w in s.processes && i < |s.attempts|
    ensures
      var t := MoveAndStop(s, SetRow(s, i, a), w, to);
      && (w in t.processes ==> !HoldsCase(t.processes[w]))
      && if Held(s, w) && L.Allowed(s.state, to, false) then t.attempts == s.attempts[i := a] && t.state == to && w !in t.processes
         else t.attempts == s.attempts && t.state == s.state
  {
    hide L.Allowed, HoldsCase;
    LostLocksNothing(s, w);
  }

  lemma LostLocksNothing(s: World, w: nat)
    requires w in s.processes
    ensures w in Lost(s, w).processes ==> !HoldsCase(Lost(s, w).processes[w])
  {}

  lemma BlockingStepCommits(s: World, e: Event, i: nat)
    requires BlockingStep(s, e, i)
    ensures
      var t := Next(s, e);
      && Actor(e).Some? && Actor(e).value in s.processes && i < |s.attempts|
      && var to := PhaseOf(s.attempts[i].kind).humanBlocked;
         if Commits(s, Actor(e).value, to) then
           t.attempts == s.attempts[i := BlockedRow(s.attempts[i], e)] && t.state == to && Actor(e).value !in t.processes
         else t.attempts == s.attempts && t.state == s.state
  {
    hide Next, Effect, MoveAndStop, Commits, HoldsCase, BlockedRow;
    BlockingEffect(s, e, i);
    BlockedIsLeft(s.attempts[i].kind);
    MovesOrStays(s, e, Actor(e).value, i, BlockedRow(s.attempts[i], e), PhaseOf(s.attempts[i].kind).humanBlocked);
  }

  lemma BlockedIsLeft(kind: Kind)
    ensures !L.Allowed(PhaseOf(kind).humanBlocked, PhaseOf(kind).humanBlocked, false)
  {}

  /** Exactly these steps leave an attempt BLOCKED, each in one commit with its case: the case is then
      in the state in which its phase waits for a human; and no other step takes a triage case there. */
  lemma BlocksExactly(s: World, e: Event, i: nat)
    requires i < |s.attempts| && s.attempts[i].status != Blocked
    ensures
      var t := Next(s, e);
      var blocks := BlockingStep(s, e, i) && Commits(s, Actor(e).value, PhaseOf(s.attempts[i].kind).humanBlocked);
      && i < |t.attempts| && (t.attempts[i].status == Blocked <==> blocks)
      && (blocks ==> t.attempts[i] == BlockedRow(s.attempts[i], e) && t.state == PhaseOf(s.attempts[i].kind).humanBlocked)
  {
    hide Next, Commits, BlockingStep;
    if BlockingStep(s, e, i) { BlockingStepCommits(s, e, i); }
    else if e.SettleOutcome? { SettlesElsewhere(s, e.w, i, Blocked); }
    else if e.BlockUnmatched? { UnmatchedElsewhere(s, e.w, i); }
    else { NextIdles(s, e, Blocked, L.Triaged); }
  }

  // ------------------------------------------------------------------ no other step

  /** The row does not turn to status `x`. */
  predicate RowRests(s: World, t: World, i: nat, x: AttemptStatus) {
    i < |s.attempts| <= |t.attempts| && (t.attempts[i].status == x ==> s.attempts[i].status == x)
  }

  /** Whatever a transaction ends with that has changed row `j`. */
  lemma AnyRests(s: World, w: nat, j: nat, b: Attempt, to: L.CaseState, pc: Pc, i: nat, x: AttemptStatus)
    requires w in s.processes && j < |s.attempts| && i < |s.attempts|
    requires i == j && b.status == x ==> s.attempts[i].status == x
    requires x != TerminationPending
    ensures
      var changed := SetRow(s, j, b);
      && OnlyRows(s, changed) && RowRests(s, FailJob(s, changed, w), i, x) && RowRests(s, MoveAndStop(s, changed, w, to), i, x)
      && RowRests(s, Goto(changed, w, pc), i, x) && RowRests(s, Lost(s, w), i, x) && RowRests(s, s, i, x)
  {
    hide FailJob, MoveAndStop, RowRests;
    FailRests(s, w, j, b, i, x);
    MoveRests(s, w, j, b, to, pc, i, x);
  }

  lemma FailRests(s: World, w: nat, j: nat, b: Attempt, i: nat, x: AttemptStatus)
    requires w in s.processes && j < |s.attempts| && i < |s.attempts|
    requires i == j && b.status == x ==> s.attempts[i].status == x
    requires x != TerminationPending
    ensures OnlyRows(s, SetRow(s, j, b)) && RowRests(s, FailJob(s, SetRow(s, j, b), w), i, x)
  {
    hide FailJob;
  }

  lemma MoveRests(s: World, w: nat, j: nat, b: Attempt, to: L.CaseState, pc: Pc, i: nat, x: AttemptStatus)
    requires w in s.processes && j < |s.attempts| && i < |s.attempts|
    requires i == j && b.status == x ==> s.attempts[i].status == x
    ensures
      var changed := SetRow(s, j, b);
      && OnlyRows(s, changed) && RowRests(s, MoveAndStop(s, changed, w, to), i, x)
      && RowRests(s, Goto(changed, w, pc), i, x) && RowRests(s, Lost(s, w), i, x) && RowRests(s, s, i, x)
  {
    hide MoveAndStop, Goto, Lost;
    var changed := SetRow(s, j, b);
    MoveRows(s, changed, w, to);
    GotoRows(changed, w, pc);
    GotoRows(s, w, pc);
  }

  lemma MoveRows(s: World, changed: World, w: nat, to: L.CaseState)
    requires w in s.processes && OnlyRows(s, changed)
    ensures MoveAndStop(s, changed, w, to).attempts in {changed.attempts, s.attempts}
  {
    hide CanMove;
  }

  lemma GotoRows(s: World, w: nat, pc: Pc)
    requires w in s.processes
    ensures Goto(s, w, pc).attempts == Lost(s, w).attempts == s.attempts
  {}

  lemma SettlesElsewhere(s: World, w: nat, i: nat, x: AttemptStatus)
    requires x in {Blocked, AttemptStatus.Failed} && i < |s.attempts|
    requires x == Blocked ==> !BlockingStep(s, SettleOutcome(w), i)
    requires x == AttemptStatus.Failed ==> !FailingStep(s, SettleOutcome(w), i)
    ensures RowRests(s, Next(s, SettleOutcome(w)), i, x)
  {
    hide Effect, FailJob, MoveAndStop, Goto, Waits, SetRow, PhaseOf, RowRests;
    EffectOf(s, SettleOutcome(w));
    StaysAtRest(s, i, x);
    if OnSettleOutcome(s, w) != s {
      var j, d := s.processes[w].pc.attempt, s.processes[w].pc.disposition;
      var a := s.attempts[j];
      if d == S.Finished {
        AnyRests(s, w, j, a.(output := s.processes[w].pc.output, finished := true), L.Failed, Finishing(j), i, x);
      } else if d == S.WaitingForHuman {
        AnyRests(s, w, j, SessionModel.Closed(a, Blocked), PhaseOf(a.kind).humanBlocked, Abandoning, i, x);
      } else {
        AnyRests(s, w, j, SessionModel.Closed(a, AttemptStatus.Failed), L.Failed, Abandoning, i, x);
      }
    }
  }

  lemma StaysAtRest(s: World, i: nat, x: AttemptStatus)
    requires i < |s.attempts|
    ensures RowRests(s, s, i, x)
  {}

  lemma UnmatchedElsewhere(s: World, w: nat, i: nat)
    requires i < |s.attempts| && !BlockingStep(s, BlockUnmatched(w), i)
    ensures RowRests(s, Next(s, BlockUnmatched(w)), i, Blocked)
  {
    hide Effect, MoveAndStop, Waits, SetRow, PhaseOf, RowRests;
    EffectOf(s, BlockUnmatched(w));
    StaysAtRest(s, i, Blocked);
    if OnBlockUnmatched(s, w) != s {
      var j := s.processes[w].pc.attempt;
      var a := SessionModel.Closed(s.attempts[j], Blocked).(createState := Unresolved, reason := OtherReason);
      AnyRests(s, w, j, a, PhaseOf(a.kind).humanBlocked, Abandoning, i, Blocked);
    }
  }

  lemma BuildsElsewhere(s: World, w: nat, ok: bool, i: nat)
    requires i < |s.attempts| && !FailingStep(s, Build(w, ok), i)
    ensures RowRests(s, Next(s, Build(w, ok)), i, AttemptStatus.Failed)
  {
    hide Effect, FailJob, Goto, Waits, SetRow, RowRests;
    EffectOfFailure(s, Build(w, ok));
    StaysAtRest(s, i, AttemptStatus.Failed);
    if OnBuild(s, w, ok) != s {
      var j := s.processes[w].pc.attempt;
      var a := s.attempts[j];
      if ok {
        AnyRests(s, w, j, a.(sent := true), L.Failed, Posting(j), i, AttemptStatus.Failed);
      } else {
        FailRests(s, w, j, a.(createState := NotSent, status := AttemptStatus.Failed, finished := true), i, AttemptStatus.Failed);
      }
    }
  }

  lemma RefusedElsewhere(s: World, w: nat, i: nat)
    requires i < |s.attempts| && !FailingStep(s, RecordRefusal(w), i)
    ensures RowRests(s, Next(s, RecordRefusal(w)), i, AttemptStatus.Failed)
  {
    hide Effect, FailJob, Waits, SetRow, RowRests;
    EffectOfFailure(s, RecordRefusal(w));
    StaysAtRest(s, i, AttemptStatus.Failed);
    if OnRecordRefusal(s, w) != s {
      var j := s.processes[w].pc.attempt;
      FailRests(s, w, j, SessionModel.Closed(s.attempts[j], AttemptStatus.Failed).(createState := ApiError), i, AttemptStatus.Failed);
    }
  }

  lemma LostElsewhere(s: World, w: nat, i: nat)
    requires i < |s.attempts| && !FailingStep(s, RecordLost(w), i)
    ensures RowRests(s, Next(s, RecordLost(w)), i, AttemptStatus.Failed)
  {
    hide Effect, FailJob, Waits, SetRow, RowRests;
    EffectOfFailure(s, RecordLost(w));
    StaysAtRest(s, i, AttemptStatus.Failed);
    if OnRecordLost(s, w) != s {
      var j := s.processes[w].pc.attempt;
      FailRests(s, w, j, SessionModel.Closed(s.attempts[j], AttemptStatus.Failed), i, AttemptStatus.Failed);
    }
  }

  lemma FinishesElsewhere(s: World, w: nat, valid: bool, i: nat)
    requires i < |s.attempts| && !FailingStep(s, Finish(w, valid), i)
    ensures RowRests(s, Next(s, Finish(w, valid)), i, AttemptStatus.Failed)
  {
    hide Effect, Waits, RowRests, OnFinish, FailingStep;
    EffectOf(s, Finish(w, valid));
    StaysAtRest(s, i, AttemptStatus.Failed);
    if OnFinish(s, w, valid) != s { FinishRests(s, w, valid, i); }
  }

  lemma FinishRests(s: World, w: nat, valid: bool, i: nat)
    requires i < |s.attempts| && !FailingStep(s, Finish(w, valid), i) && OnFinish(s, w, valid) != s
    ensures RowRests(s, OnFinish(s, w, valid), i, AttemptStatus.Failed)
  {
    hide FailJob, MoveAndStop, Lost, Stop, RowRests, CanMove, Moved, SetRow;
    var j := s.processes[w].pc.attempt;
    var a := s.attempts[j];
    AnyRests(s, w, j, a.(status := Succeeded), L.OutputValidating, Abandoning, i, AttemptStatus.Failed);
    SucceededRests(s, w, j, i);
    if i != j { FailRests(s, w, j, a.(status := AttemptStatus.Failed, output := false), i, AttemptStatus.Failed); }
  }

  lemma SucceededRests(s: World, w: nat, j: nat, i: nat)
    requires w in s.processes && j < |s.attempts| && i < |s.attempts|
    ensures
      var succeeded := SetRow(s, j, s.attempts[j].(status := Succeeded));
      RowRests(s, Stop(Moved(Moved(succeeded, w, L.Triaged), w, L.AwaitingRemediationApproval), w), i, AttemptStatus.Failed)
  {}

  // ------------------------------------------------------------------ a confirmed end

  /** What the confirmed end of attempt `a` is called: the deadline outranks whatever asked for it. */
  function EndName(a: Attempt, expired: bool): AttemptStatus {
    if expired || !(a.reason.CancelRequested? || a.reason.WorkerError?) then AttemptStatus.TimedOut
    else if a.reason.CancelRequested? then Cancelled
    else AttemptStatus.Failed
  }

  /** And where it leaves the case. */
  function EndState(a: Attempt, expired: bool): L.CaseState {
    var phase := PhaseOf(a.kind);
    match EndName(a, expired)
    case Cancelled => phase.cancelled
    case Failed => phase.failed
    case _ => phase.timedOut
  }

  /** The end of a session, once it is confirmed, closes its attempt under the name of its cause, and
      the case with it; if the case cannot be moved, nothing changes. */
  lemma ClosesAsAsked(s: World, w: nat, expired: bool, i: nat)
    requires IsAt(s, w, Closing(i), i)
    ensures
      var t := Next(s, CloseOut(w, expired));
      var a := s.attempts[i];
      if Commits(s, w, EndState(a, expired)) then
        && t.attempts == s.attempts[i := a.(status := EndName(a, expired), finished := true, reason := NoReason)]
        && t.state == EndState(a, expired) && w !in t.processes
      else t.attempts == s.attempts && t.state == s.state
  {
    hide Next, Effect, MoveAndStop, Commits, HoldsCase, L.Allowed;
    var a := s.attempts[i];
    var e := CloseOut(w, expired);
    EffectOf(s, e);
    Unlocked(Closing(i), s.processes[w]);
    EndsAreLeft(a.kind);
    var b := a.(status := EndName(a, expired), finished := true, reason := NoReason);
    assert OnCloseOut(s, w, expired) == MoveAndStop(s, SetRow(s, i, b), w, EndState(a, expired));
    MovesOrStays(s, e, w, i, b, EndState(a, expired));
  }

  lemma EndsAreLeft(kind: Kind)
    ensures var phase := PhaseOf(kind); forall to | to in {phase.cancelled, phase.failed, phase.timedOut} :: !L.Allowed(to, to, false)
  {}

  lemma ClosesElsewhere(s: World, w: nat, expired: bool, i: nat, x: AttemptStatus)
    requires i < |s.attempts| && !IsAt(s, w, Closing(i), i) && x in {AttemptStatus.TimedOut, AttemptStatus.Failed}
    ensures RowRests(s, Next(s, CloseOut(w, expired)), i, x)
  {
    hide Effect, MoveAndStop, Waits, SetRow, PhaseOf, RowRests;
    EffectOf(s, CloseOut(w, expired));
    StaysAtRest(s, i, x);
    if OnCloseOut(s, w, expired) != s {
      var j := s.processes[w].pc.attempt;
      var a := s.attempts[j];
      AnyRests(s, w, j, SessionModel.Closed(a, Cancelled).(reason := NoReason), PhaseOf(a.kind).cancelled, Abandoning, i, x);
      AnyRests(s, w, j, SessionModel.Closed(a, AttemptStatus.Failed).(reason := NoReason), PhaseOf(a.kind).failed, Abandoning, i, x);
      AnyRests(s, w, j, SessionModel.Closed(a, AttemptStatus.TimedOut).(reason := NoReason), PhaseOf(a.kind).timedOut, Abandoning, i, x);
    }
  }

  /** Exactly these steps leave an attempt TIMED_OUT: its end is confirmed, past the deadline or without
      anybody having asked for it. */
  lemma TimesOutExactly(s: World, e: Event, i: nat)
    requires i < |s.attempts| && s.attempts[i].status != AttemptStatus.TimedOut
    ensures
      var t := Next(s, e);
      && i < |t.attempts|
      && (t.attempts[i].status == AttemptStatus.TimedOut <==>
            && e.CloseOut? && IsAt(s, e.w, Closing(i), i) && EndName(s.attempts[i], e.expired) == AttemptStatus.TimedOut
            && Commits(s, e.w, PhaseOf(s.attempts[i].kind).timedOut))
  {
    hide Next, Commits, PhaseOf, EndName;
    if e.CloseOut? {
      if IsAt(s, e.w, Closing(i), i) { ClosesAsAsked(s, e.w, e.expired, i); } else { ClosesElsewhere(s, e.w, e.expired, i, AttemptStatus.TimedOut); }
    } else {
      NextIdles(s, e, AttemptStatus.TimedOut, L.Triaged);
    }
  }

  /** Exactly these steps leave an attempt FAILED: a failing job that can be committed, or the confirmed
      end of a session that a failing job had asked for, before the deadline. */
  lemma FailsExactly(s: World, e: Event, i: nat)
    requires i < |s.attempts| && s.attempts[i].status != AttemptStatus.Failed
    ensures
      var t := Next(s, e);
      && i < |t.attempts|
      && (t.attempts[i].status == AttemptStatus.Failed <==>
            || (FailingStep(s, e, i) && MayFall(s, Actor(e).value, i))
            || (e.CloseOut? && IsAt(s, e.w, Closing(i), i) && EndName(s.attempts[i], e.expired) == AttemptStatus.Failed &&
                Commits(s, e.w, PhaseOf(s.attempts[i].kind).failed)))
  {
    hide Next, Commits, PhaseOf, EndName, MayFall, Fallen, FailedRow, FailingStep;
    if e.CloseOut? {
      NoFailingStep(s, e, i);
      if IsAt(s, e.w, Closing(i), i) { ClosesAsAsked(s, e.w, e.expired, i); }
      else { ClosesElsewhere(s, e.w, e.expired, i, AttemptStatus.Failed); }
    } else if FailingStep(s, e, i) {
      FailingStepFalls(s, e, i);
      FailedIsFailed(s.attempts[i], e);
    } else {
      OthersFailNot(s, e, i);
    }
  }

  lemma NoFailingStep(s: World, e: Event, i: nat)
    requires e.CloseOut?
    ensures !FailingStep(s, e, i)
  {}

  lemma OthersFailNot(s: World, e: Event, i: nat)
    requires i < |s.attempts| && !e.CloseOut? && !FailingStep(s, e, i)
    ensures RowRests(s, Next(s, e), i, AttemptStatus.Failed)
  {
    hide Next, FailingStep;
    match e
    case SettleOutcome(w) => SettlesElsewhere(s, w, i, AttemptStatus.Failed);
    case Finish(w, valid) => FinishesElsewhere(s, w, valid, i);
    case Build(w, ok) => BuildsElsewhere(s, w, ok, i);
    case RecordRefusal(w) => RefusedElsewhere(s, w, i);
    case RecordLost(w) => LostElsewhere(s, w, i);
    case _ => NextIdles(s, e, AttemptStatus.Failed, L.Triaged);
  }

  lemma FailedIsFailed(a: Attempt, e: Event)
    ensures FailedRow(a, e).status == AttemptStatus.Failed
  {}

  // ------------------------------------------------------------------ where a triage case comes to rest

  /** The event brings triage attempt `i` to a good end. */
  predicate TriageEndsWell(s: World, e: Event, i: nat) { i < |s.attempts| && s.attempts[i].kind == Triage && EndsWell(s, e, i) }

  predicate TriageAsks(s: World, e: Event, i: nat) {
    i < |s.attempts| && s.attempts[i].kind == Triage && BlockingStep(s, e, i) && Commits(s, Actor(e).value, L.HumanBlocked)
  }

  predicate TriageTimesOut(s: World, e: Event, i: nat) {
    && i < |s.attempts| && s.attempts[i].kind == Triage && e.CloseOut? && IsAt(s, e.w, Closing(i), i)
    && EndName(s.attempts[i], e.expired) == AttemptStatus.TimedOut && Commits(s, e.w, L.TimedOut)
  }

  /** A case comes to await an approval exactly by the good end of a triage attempt of its own. */
  lemma AwaitsExactly(s: World, e: Event)
    requires s.state != L.AwaitingRemediationApproval
    ensures Next(s, e).state == L.AwaitingRemediationApproval <==> exists i: nat :: TriageEndsWell(s, e, i)
  {
    hide Next, EndsWell;
    if e.Finish? && e.w in s.processes && s.processes[e.w].pc.Finishing? && s.processes[e.w].pc.attempt < |s.attempts| {
      var i := s.processes[e.w].pc.attempt;
      if EndsWell(s, e, i) {
        FinishesWell(s, e, i);
        OnlyOneEnds(s, e, i);
        assert TriageEndsWell(s, e, i) <==> s.attempts[i].kind == Triage;
      } else {
        FinishesBadly(s, e.w, e.valid, i);
        OnlyOneEnds(s, e, i);
      }
    } else {
      NobodyEnds(s, e);
      if e.Finish? { FinishDoesNothing(s, e.w, e.valid); } else { NextIdles(s, e, Succeeded, L.AwaitingRemediationApproval); }
    }
  }

  lemma OnlyOneEnds(s: World, e: Event, i: nat)
    requires e.Finish? && IsAt(s, e.w, Finishing(i), i)
    ensures forall j: nat :: TriageEndsWell(s, e, j) ==> j == i
  {}

  lemma NobodyEnds(s: World, e: Event)
    requires !(e.Finish? && e.w in s.processes && s.processes[e.w].pc.Finishing? && s.processes[e.w].pc.attempt < |s.attempts|)
    ensures forall i: nat :: !TriageEndsWell(s, e, i)
  {}

  lemma FinishDoesNothing(s: World, w: nat, valid: bool)
    requires !(w in s.processes && s.processes[w].pc.Finishing? && s.processes[w].pc.attempt < |s.attempts|)
    ensures Next(s, Finish(w, valid)) == s
  {
    hide Effect, Waits;
    EffectOf(s, Finish(w, valid));
  }

  /** A triage case comes to wait for a human exactly when one of its attempts is left to one. */
  lemma AsksAHumanExactly(s: World, e: Event)
    requires s.state != L.HumanBlocked
    ensures Next(s, e).state == L.HumanBlocked <==> exists i: nat :: TriageAsks(s, e, i)
  {
    hide Next, Commits, BlockingStep;
    if i: nat :| i < |s.attempts| && BlockingStep(s, e, i) {
      BlockingStepCommits(s, e, i);
      OnlyOneBlocks(s, e, i);
      if s.attempts[i].kind == Triage { assert TriageAsks(s, e, i) <==> Commits(s, Actor(e).value, L.HumanBlocked); }
    } else if e.SettleOutcome? || e.BlockUnmatched? {
      NoneBlocks(s, e);
    } else {
      NextIdles(s, e, Blocked, L.HumanBlocked);
      assert forall i: nat :: !TriageAsks(s, e, i);
    }
  }

  lemma OnlyOneBlocks(s: World, e: Event, i: nat)
    requires BlockingStep(s, e, i)
    ensures forall j: nat :: BlockingStep(s, e, j) ==> j == i
  {}

  lemma NoneBlocks(s: World, e: Event)
    requires (e.SettleOutcome? || e.BlockUnmatched?) && s.state != L.HumanBlocked
    requires forall i: nat :: i < |s.attempts| ==> !BlockingStep(s, e, i)
    ensures Next(s, e).state != L.HumanBlocked
  {
    hide Effect, FailJob, Waits, MoveAndStop, CanMove;
    EffectOf(s, e);
    if Next(s, e).state == L.HumanBlocked { SubjectBlocks(s, e); }
  }

  /** The attempt that the process is about. */
  lemma SubjectBlocks(s: World, e: Event)
    requires (e.SettleOutcome? || e.BlockUnmatched?) && e.w in s.processes
    requires
      var pc := s.processes[e.w].pc;
      || (e.BlockUnmatched? && pc.Unmatched? && pc.attempt < |s.attempts|)
      || (e.SettleOutcome? && pc.Settled? && pc.attempt < |s.attempts| && pc.disposition == S.WaitingForHuman)
    ensures BlockingStep(s, e, s.processes[e.w].pc.attempt)
  {}

  /** And it times out exactly with one of its attempts. */
  lemma TriageTimesOutExactly(s: World, e: Event)
    requires s.state != L.TimedOut
    ensures Next(s, e).state == L.TimedOut <==> exists i: nat :: TriageTimesOut(s, e, i)
  {
    hide Next, Commits;
    if e.CloseOut? && e.w in s.processes && s.processes[e.w].pc.Closing? && s.processes[e.w].pc.attempt < |s.attempts| {
      var i := s.processes[e.w].pc.attempt;
      ClosesAsAsked(s, e.w, e.expired, i);
      assert forall j: nat :: TriageTimesOut(s, e, j) ==> j == i;
      assert EndState(s.attempts[i], e.expired) == L.TimedOut ==> EndName(s.attempts[i], e.expired) == AttemptStatus.TimedOut && s.attempts[i].kind == Triage;
      if s.attempts[i].kind == Triage && EndName(s.attempts[i], e.expired) == AttemptStatus.TimedOut {
        assert TriageTimesOut(s, e, i) <==> Commits(s, e.w, L.TimedOut);
      }
    } else {
      assert forall i: nat :: !TriageTimesOut(s, e, i);
      if e.CloseOut? { CloseDoesNothing(s, e.w, e.expired); } else { NextIdles(s, e, AttemptStatus.TimedOut, L.TimedOut); }
    }
  }

  lemma CloseDoesNothing(s: World, w: nat, expired: bool)
    requires !(w in s.processes && s.processes[w].pc.Closing? && s.processes[w].pc.attempt < |s.attempts|)
    ensures Next(s, CloseOut(w, expired)) == s
  {
    hide Effect, Waits;
    EffectOf(s, CloseOut(w, expired));
  }

  // ------------------------------------------------------------------ over every run

  lemma AtStart(config: Config, es: seq<Event>)
    ensures At(config, es, 0) == Initial(config)
  {
    assert es[..0] == [];
  }

  /** In every run of any number of workers, crashes anywhere: an attempt that has succeeded was brought
      to a good end by some event - for triage, the commit of an output that was there and valid. */
  lemma {:induction false} SuccessWasEarned(config: Config, es: seq<Event>, n: nat, i: nat)
    requires n <= |es| && i < |At(config, es, n).attempts| && At(config, es, n).attempts[i].status == Succeeded
    ensures exists m: nat :: m < n && EndsWell(At(config, es, m), es[m], i)
  {
    hide Next, EndsWell;
    AtStart(config, es);
    if n > 0 {
      var s := At(config, es, n - 1);
      AtNext(config, es, n - 1);
      NewRowsRun(s, es[n - 1], i);
      if s.attempts[i].status == Succeeded {
        SuccessWasEarned(config, es, n - 1, i);
      } else {
        SucceedsExactly(s, es[n - 1], i);
        assert n - 1 < n;
      }
    }
  }

  /** A row that succeeds was there before. */
  lemma NewRowsRun(s: World, e: Event, i: nat)
    requires i < |Next(s, e).attempts| && Next(s, e).attempts[i].status == Succeeded
    ensures i < |s.attempts|
  {
    hide Effect;
    if e.Finish? {
      hide FailJob, Waits, CanMove;
      EffectOf(s, e);
    } else {
      hide Next;
      NextIdles(s, e, Succeeded, L.Triaged);
    }
  }

  /** And a case that awaits an approval came to do so by the good end of a triage attempt. */
  lemma {:induction false} ApprovalWasEarned(config: Config, es: seq<Event>, n: nat)
    requires n <= |es| && At(config, es, n).state == L.AwaitingRemediationApproval
    ensures exists m: nat, i: nat :: m < n && TriageEndsWell(At(config, es, m), es[m], i)
  {
    hide Next, TriageEndsWell;
    AtStart(config, es);
    if n > 0 {
      var s := At(config, es, n - 1);
      AtNext(config, es, n - 1);
      if s.state == L.AwaitingRemediationApproval {
        ApprovalWasEarned(config, es, n - 1);
      } else {
        AwaitsExactly(s, es[n - 1]);
        var i: nat :| TriageEndsWell(s, es[n - 1], i);
        assert n - 1 < n && TriageEndsWell(At(config, es, n - 1), es[n - 1], i);
      }
    }
  }
}
