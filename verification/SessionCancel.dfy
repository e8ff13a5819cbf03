/** When an operator's cancel comes too late. A cancel that closes the case at once looks at the
    attempts it finds; it does not see a process that is about to insert or send one, nor a process
    that still polls an attempt which an operator's request has finished under its hands. Exactly in
    these cases the closed case can end with a sent attempt that is active; what it can end with at
    work is the matter of `SessionAftermath`. */
module SessionCancel {
  import opened Wrappers
  import opened Tags
  import opened SessionModel
  import opened SessionProtocol
  import opened SessionSafety
  import opened SessionOwnership
  import opened SessionSharing
  import opened SessionHandover
  import L = Lifecycle
  import S = Status

  // ------------------------------------------------------------------ too late

  /** An earlier attempt that does not stop a new one. */
  predicate Admissible(a: Attempt) { a.createState == Unresolved ==> a.reason == Acknowledged }

  /** A run of `kind` that is entered now inserts a new attempt. */
  predicate EntryCreates(s: World, kind: Kind) {
    && NewestActive(s.attempts, kind, |s.attempts|).None?
    && NextOrdinal(s.attempts, kind) <= s.config.maxAttempts
    && forall i | 0 <= i < |s.attempts| && Unsettled(s.attempts[i], kind) :: Admissible(s.attempts[i])
  }

  predicate SomePending(s: World) { exists i | 0 <= i < |s.attempts| :: SessionProtocol.Pending(s.attempts[i]) }

  /** A process that has read this state from the case enters a run that inserts a new attempt. */
  predicate DispatchCreates(s: World, mem: L.CaseState) {
    match mem
    case TriageCreateIntent => EntryCreates(s, Triage)
    case Triaging => EntryCreates(s, Triage)
    case RemediationTerminationPending => SomePending(s) && EntryCreates(s, Remediation)
    case RemediationCreateIntent => EntryCreates(s, Remediation)
    case RemediationReconcilingCreate => EntryCreates(s, Remediation)
    case Remediating => EntryCreates(s, Remediation)
    case _ => false
  }

  predicate AllAdmissible(s: World, todo: seq<nat>) {
    forall i <- todo :: i < |s.attempts| ==> Admissible(s.attempts[i])
  }

  /** The process will insert an attempt, or send the one it has inserted, without looking at the case. */
  predicate Creating(s: World, p: Process) {
    match p.pc
    case Dispatching => DispatchCreates(s, p.mem)
    case Entered(kind) => EntryCreates(s, kind)
    case Settling(_, _, todo, _) => AllAdmissible(s, todo)
    case SettleDelete(_, _, todo, _) => todo != [] && AllAdmissible(s, todo[1..])
    case Inserting(_, _) => true
    case Building(_) => true
    case _ => false
  }

  /** The process will set the status of its attempt again, whatever it has become in between. */
  predicate Reviving(s: World, p: Process) {
    match p.pc
    case Polling(_) => true
    case PollGet(_) => true
    case Handling(_) => true
    case Deleting(i) => i < |s.attempts| && p.mem == PhaseOf(s.attempts[i].kind).terminationPending
    case DeleteFailed(i) => i < |s.attempts| && p.mem == PhaseOf(s.attempts[i].kind).terminationPending
    case _ => false
  }

  predicate TooLate(s: World, p: Process) { Holder(p) && (Creating(s, p) || Reviving(s, p)) }

  predicate SentOwner(a: Attempt) { Owning(a) && a.sent }

  /** What a closed case may leave behind: an attempt that was sent and is still active, or a session
      that works. */
  datatype Leak = SentAttempt | WorkingSession

  predicate SomethingWorks(s: World) { exists x <- s.sessions :: s.sessions[x].phase == Working }

  predicate Leaked(s: World, leak: Leak) {
    L.Terminal(s.state) &&
    match leak
    case SentAttempt => exists a <- s.attempts :: Active(a) && a.sent
    case WorkingSession => SomethingWorks(s)
  }

  ghost predicate SerialFrom(s: World, es: seq<Event>) {
    forall n | 0 <= n < |es| :: Serial(Run(s, es[..n]), es[n])
  }

  ghost predicate CanLeak(s: World, leak: Leak) { exists es :: SerialFrom(s, es) && Leaked(Run(s, es), leak) }

  // ------------------------------------------------------------------ operation keys

  ghost predicate KeyOf(caseId: string, a: Attempt) {
    match a.kind
    case Triage => a.key == OperationKey(caseId, Triage, a.ordinal)
    case Remediation => exists h, b :: RemediationOperationKey(caseId, h, b, a.ordinal) == Some(a.key)
  }

  ghost predicate KeysOk(s: World) { forall i | 0 <= i < |s.attempts| :: KeyOf(s.config.caseId, s.attempts[i]) }

  lemma NextKeepsKeys(s: World, e: Event)
    requires KeysOk(s)
    ensures KeysOk(Next(s, e))
  {
    hide KeyOf;
    var t := Next(s, e);
    if CreatesNothing(e) {
      hide Next, Follows, Tidy;
      NextIsQuiet(s, e);
      forall i | 0 <= i < |t.attempts| ensures KeyOf(t.config.caseId, t.attempts[i]) {
        assert SameIdentity(s.attempts[i], t.attempts[i]);
        SameKey(s.config.caseId, s.attempts[i], t.attempts[i]);
      }
    } else {
      hide Next, Effect, OnInsert, OnBuild, OnSendPost, KeysOk, Waits;
      InsertKeepsKeys(s, e);
    }
  }

  lemma SameKey(caseId: string, a: Attempt, b: Attempt)
    requires KeyOf(caseId, a) && SameIdentity(a, b)
    ensures KeyOf(caseId, b)
  {}

  lemma InsertKeepsKeys(s: World, e: Event)
    requires KeysOk(s) && !CreatesNothing(e)
    ensures KeysOk(Next(s, e))
  {
    hide Waits, KeyOf;
    match e
    case Insert(w, h, b) =>
      var t := OnInsert(s, w, h, b);
      if |t.attempts| != |s.attempts| {
        NewKey(s.config.caseId, t.attempts[|s.attempts|], h, b);
        forall i | 0 <= i < |t.attempts| ensures KeyOf(t.config.caseId, t.attempts[i]) {
          if i < |s.attempts| { assert t.attempts[i] == s.attempts[i]; }
        }
      }
    case Build(w, ok) =>
      var t := OnBuild(s, w, true);
      forall i | 0 <= i < |t.attempts| ensures KeyOf(t.config.caseId, t.attempts[i]) {
        assert KeyOf(s.config.caseId, s.attempts[i]);
        BuiltKey(s.config.caseId, s.attempts[i]);
      }
    case SendPost(w, posted, sid) =>
  }

  lemma BuiltKey(caseId: string, a: Attempt)
    requires KeyOf(caseId, a)
    ensures KeyOf(caseId, a.(sent := true))
  {}

  lemma NewKey(caseId: string, a: Attempt, h: string, b: string)
    requires KeyFor(caseId, a.kind, h, b, a.ordinal) == Some(a.key)
    ensures KeyOf(caseId, a)
  {}

  lemma {:induction false} RunKeepsKeys(config: Config, es: seq<Event>)
    ensures KeysOk(Run(Initial(config), es))
  {
    if es != [] {
      hide Next, KeysOk;
      RunKeepsKeys(config, es[..|es| - 1]);
      NextKeepsKeys(Run(Initial(config), es[..|es| - 1]), es[|es| - 1]);
    }
  }

  /** A planned ordinal that is still free makes a key that no attempt has. */
  lemma KeyIsFresh(s: World, kind: Kind, ordinal: nat, h: string, b: string, i: nat)
    requires KeysOk(s) && PlanFresh(s, kind, ordinal) && i < |s.attempts|
    requires KeyFor(s.config.caseId, kind, h, b, ordinal).Some?
    ensures s.attempts[i].key != KeyFor(s.config.caseId, kind, h, b, ordinal).value
  {
    var c := s.config.caseId;
    var a := s.attempts[i];
    assert a in s.attempts && KeyOf(c, a);
    var key := KeyFor(c, kind, h, b, ordinal).value;
    if a.kind == Triage {
      if kind == Triage {
        if a.key == key { OperationKeyIdentifies(c, Triage, a.ordinal, c, Triage, ordinal); }
      } else {
        PhasesNeverShareAKey(c, a.ordinal, c, h, b, ordinal);
      }
    } else {
      var g, d :| RemediationOperationKey(c, g, d, a.ordinal) == Some(a.key);
      if kind == Triage {
        PhasesNeverShareAKey(c, ordinal, c, g, d, a.ordinal);
      } else if a.key == key {
        RemediationKeyIdentifies(c, g, d, a.ordinal, c, h, b, ordinal);
      }
    }
  }

  /** An attempt that names a session was sent. */
  lemma BoundWasSent(s: World, i: nat)
    requires Inv(s) && RowsTraced(s) && RemoteOk(s) && i < |s.attempts| && s.attempts[i].session.Some?
    ensures s.attempts[i].sent
  {
    assert RowTrace(s.sessions, s.attempts[i]);
    var p :| p in s.posts && p.key == s.attempts[i].key;
    var k :| 0 <= k < |s.posts| && s.posts[k] == p;
    assert PostOk(s, p);
    SameKeySameRow(s, p.attempt, i);
  }

  lemma SameKeySameRow(s: World, i: nat, j: nat)
    requires RowsOk(s) && i < |s.attempts| && j < |s.attempts| && s.attempts[i].key == s.attempts[j].key
    ensures i == j
  {}

  // ------------------------------------------------------------------ too late: the runs that leak

  ghost predicate AllOk(s: World) { Inv(s) && Own(s, false) && KeysOk(s) }

  /** The closed case of a serial run, with nothing that makes process `w` wait. */
  ghost predicate Shut(s: World, w: nat) {
    && AllOk(s) && L.Terminal(s.state)
    && w in s.processes && Holder(s.processes[w])
    && forall v <- s.processes :: v != w ==> !HoldsCase(s.processes[v])
  }

  lemma {:induction false} RunFrom(s: World, e: Event, es: seq<Event>)
    ensures Run(s, [e] + es) == Run(Next(s, e), es)
  {
    hide Next;
    var all := [e] + es;
    if es == [] {
      assert all[..0] == [] && all[0] == e;
    } else {
      RunFrom(s, e, es[..|es| - 1]);
      assert all[..|all| - 1] == [e] + es[..|es| - 1];
    }
  }

  lemma Prepend(s: World, e: Event, leak: Leak)
    requires Serial(s, e) && CanLeak(Next(s, e), leak)
    ensures CanLeak(s, leak)
  {
    hide Next, Serial, Leaked;
    var es :| SerialFrom(Next(s, e), es) && Leaked(Run(Next(s, e), es), leak);
    var all := [e] + es;
    forall n | 0 <= n < |all| ensures Serial(Run(s, all[..n]), all[n]) {
      if n == 0 {
        assert all[..0] == [];
      } else {
        RunFrom(s, e, es[..n - 1]);
        assert all[..n] == [e] + es[..n - 1] && all[n] == es[n - 1];
      }
    }
    RunFrom(s, e, es);
    assert SerialFrom(s, all);
  }

  lemma LeaksNow(s: World, leak: Leak)
    requires Leaked(s, leak)
    ensures CanLeak(s, leak)
  {
    var none: seq<Event> := [];
    assert SerialFrom(s, none) && Run(s, none) == s;
  }

  lemma NextIsOk(s: World, e: Event)
    requires AllOk(s) && Serial(s, e)
    ensures AllOk(Next(s, e))
  {
    hide Inv, Own, KeysOk, Next, Serial;
    NextKeeps(s, e);
    NextOwns(s, e, false);
    NextKeepsKeys(s, e);
  }

  /** Process `w` goes from `s` to `t`, and the case is left alone. */
  predicate Advances(s: World, t: World, w: nat) {
    && w in s.processes && t.state == s.state
    && w in t.processes && t.processes == s.processes[w := t.processes[w]] && Holder(t.processes[w]) == Holder(s.processes[w])
  }

  /** The step of process `w` takes place, and the case stays closed. */
  lemma StepGoes(s: World, e: Event, w: nat)
    requires Shut(s, w) && Actor(e) == Some(w) && !e.ClaimCase? && Advances(s, Effect(s, e), w)
    ensures Next(s, e) == Effect(s, e) && Serial(s, e) && Shut(Next(s, e), w)
  {
    hide AllOk, Effect, HoldsCase, Actor;
    assert Next(s, e) == Effect(s, e);
    NextIsOk(s, e);
  }

  /** What the holder of a closed case may rely on. */
  lemma ShutParts(s: World, w: nat)
    requires Shut(s, w)
    ensures HolderAt(s, w) && ProcessOk(s, s.processes[w], false) && RowsTraced(s) && RemoteOk(s) && Inv(s) && KeysOk(s)
    ensures L.Terminal(s.state) && w in s.processes
  {
    hide Inv, Own, KeysOk;
    AtProcess(s, w, false);
  }

  lemma LeaksAfter(s: World, e: Event, w: nat, leak: Leak)
    requires Shut(s, w) && Actor(e) == Some(w) && !e.ClaimCase? && Effect(s, e).state == s.state
    requires w in Effect(s, e).processes ==> !HoldsCase(Effect(s, e).processes[w])
    requires Leaked(Effect(s, e), leak)
    ensures CanLeak(s, leak)
  {
    hide AllOk, Effect, HoldsCase, Actor, Leaked;
    var t := Effect(s, e);
    assert Next(s, e) == t && Serial(s, e);
    LeaksNow(t, leak);
    hide Next, Serial, Shut;
    Prepend(s, e, leak);
  }

  lemma RowLeaks(s: World, e: Event, w: nat, i: nat)
    requires Shut(s, w) && Actor(e) == Some(w) && !e.ClaimCase? && Effect(s, e).state == s.state
    requires w in Effect(s, e).processes ==> !HoldsCase(Effect(s, e).processes[w])
    requires i < |Effect(s, e).attempts| && Active(Effect(s, e).attempts[i]) && Effect(s, e).attempts[i].sent
    ensures CanLeak(s, SentAttempt)
  {
    hide AllOk, Effect, HoldsCase, Actor;
    assert Effect(s, e).attempts[i] in Effect(s, e).attempts;
    LeaksAfter(s, e, w, SentAttempt);
  }

  const READ := Snapshot(S.Live, false, false, false)
  const WAITING := Snapshot(S.WaitingForHuman, false, false, false)

  /** What the events below do, once they go. */
  lemma EffectOf(s: World, e: Event)
    ensures e.Build? ==> Effect(s, e) == OnBuild(s, e.w, e.ok)
    ensures e.SendPost? ==> Effect(s, e) == OnSendPost(s, e.w, e.posted, e.sid)
    ensures e.Insert? ==> Effect(s, e) == OnInsert(s, e.w, e.resultHash, e.baseSha)
    ensures e.SettleCommit? ==> Effect(s, e) == OnSettleCommit(s, e.w)
    ensures e.SettleStep? ==> Effect(s, e) == OnSettleStep(s, e.w, e.got)
    ensures e.SettleDeleted? ==> Effect(s, e) == OnSettleDeleted(s, e.w, e.answer)
    ensures e.Enter? ==> Effect(s, e) == OnEnter(s, e.w, e.granted)
    ensures e.Dispatch? ==> Effect(s, e) == OnDispatch(s, e.w, e.pick)
    ensures e.PollCheck? ==> Effect(s, e) == OnPollCheck(s, e.w, e.expired)
    ensures e.PollAnswer? ==> Effect(s, e) == OnPollAnswer(s, e.w, e.got)
    ensures e.TimeoutGet? ==> Effect(s, e) == OnTimeoutGet(s, e.w, e.got)
    ensures e.TimeoutDelete? ==> Effect(s, e) == OnTimeoutDelete(s, e.w, e.answer)
    ensures e.Park? ==> Effect(s, e) == OnPark(s, e.w)
    ensures e.OperatorCancel? ==> Effect(s, e) == OnOperatorCancel(s)
  {
    hide OnBuild, OnInsert, OnSendPost, OnSettleCommit, OnSettleStep, OnSettleDeleted, OnEnter, OnDispatch, OnPollCheck, OnPollAnswer,
      OnTimeoutGet, OnTimeoutDelete, OnPark, OnOperatorCancel;
  }

  lemma FreshSession(sessions: map<nat, Session>) returns (sid: nat)
    ensures sid !in sessions
  {
    sid := Largest(sessions.Keys) + 1;
  }

  ghost function Largest(xs: set<nat>): (r: nat)
    ensures forall x <- xs :: x <= r
  {
    if xs == {} then 0
    else
      var x :| x in xs;
      var rest := Largest(xs - {x});
      assert forall y <- xs :: y == x || y in xs - {x};
      if x > rest then x else rest
  }

  /** The row is marked as sent: the POST creates a session. */
  lemma PostingWorks(s: World, w: nat)
    requires Shut(s, w) && s.processes[w].pc.Posting?
    ensures CanLeak(s, WorkingSession)
  {
    hide Effect, Next, Serial, Shut, Inv, KeysOk, RowsTraced, RemoteOk, Mine, RowQuiet;
    ShutParts(s, w);
    var sid := FreshSession(s.sessions);
    var e := SendPost(w, PostAccepted, sid);
    EffectOf(s, e);
    var t := Effect(s, e);
    assert sid in t.sessions && t.sessions[sid].phase == Working;
    LeaksAfter(s, e, w, WorkingSession);
  }

  /** The row is inserted: its request is built and it is marked as sent. */
  lemma BuildingLeaks(s: World, w: nat, leak: Leak)
    requires Shut(s, w) && s.processes[w].pc.Building?
    ensures CanLeak(s, leak)
  {
    hide Effect, Next, Serial, Shut, Inv, KeysOk, RowsTraced, RemoteOk, Mine, RowQuiet;
    ShutParts(s, w);
    var e := Event.Build(w, true);
    EffectOf(s, e);
    if leak == SentAttempt {
      RowLeaks(s, e, w, s.processes[w].pc.attempt);
    } else {
      StepGoes(s, e, w);
      PostingWorks(Next(s, e), w);
      Prepend(s, e, leak);
    }
  }

  function Zeros(n: nat): string { seq(n, _ => '0') }

  lemma InsertsRow(s: World, w: nat)
    requires Shut(s, w) && s.processes[w].pc.Inserting?
    ensures
      var t := OnInsert(s, w, Zeros(64), Zeros(40));
      Advances(s, t, w) && t.processes[w].pc.Building?
  {
    ShutParts(s, w);
    hide Shut, Inv, KeysOk, RemoteOk;
    var Inserting(kind, ordinal) := s.processes[w].pc;
    var h, b := Zeros(64), Zeros(40);
    assert KeyFor(s.config.caseId, kind, h, b, ordinal).Some?;
    forall i | 0 <= i < |s.attempts|
      ensures s.attempts[i].key != KeyFor(s.config.caseId, kind, h, b, ordinal).value
      ensures s.attempts[i].kind == kind ==> s.attempts[i].ordinal != ordinal && s.attempts[i].finished
    {
      KeyIsFresh(s, kind, ordinal, h, b, i);
      assert s.attempts[i] in s.attempts && RowTrace(s.sessions, s.attempts[i]);
    }
  }

  lemma InsertingLeaks(s: World, w: nat, leak: Leak)
    requires Shut(s, w) && s.processes[w].pc.Inserting?
    ensures CanLeak(s, leak)
  {
    var e := Event.Insert(w, Zeros(64), Zeros(40));
    InsertsRow(s, w);
    EffectOf(s, e);
    hide Next, Effect, Shut, OnInsert, Serial;
    StepGoes(s, e, w);
    BuildingLeaks(Next(s, e), w, leak);
    Prepend(s, e, leak);
  }

  /** The settling loop, with no session that has output and no DELETE that fails. */
  lemma {:induction false} SettlingLeaks(s: World, w: nat, leak: Leak)
    requires Shut(s, w) && s.processes[w].pc.Settling? && AllAdmissible(s, s.processes[w].pc.todo)
    ensures CanLeak(s, leak)
    decreases |s.processes[w].pc.todo|, 1
  {
    hide Effect, Next, Serial, Shut, ProcessOk, Inv, KeysOk, RowsTraced, RemoteOk, AllAdmissible, OnSettleStep;
    ShutParts(s, w);
    if s.processes[w].pc.todo == [] {
      SettledLeaks(s, w, leak);
    } else {
      var e := SettleStep(w, READ);
      EffectOf(s, e);
      HeadExists(s, w);
      SettleStepGoes(s, w);
      StepGoes(s, e, w);
      if Next(s, e).processes[w].pc.Settling? { SettlingLeaks(Next(s, e), w, leak); } else { SettleDeleteLeaks(Next(s, e), w, leak); }
      Prepend(s, e, leak);
    }
  }

  lemma HeadExists(s: World, w: nat)
    requires w in s.processes && ProcessOk(s, s.processes[w], false) && s.processes[w].pc.Settling?
    requires s.processes[w].pc.todo != []
    ensures s.processes[w].pc.todo[0] < |s.attempts|
  {
    assert s.processes[w].pc.todo[0] in s.processes[w].pc.todo;
  }

  lemma SettleStepGoes(s: World, w: nat)
    requires w in s.processes && s.processes[w].pc.Settling? && s.processes[w].pc.todo != []
    requires s.processes[w].pc.todo[0] < |s.attempts| && AllAdmissible(s, s.processes[w].pc.todo)
    ensures
      var t := OnSettleStep(s, w, READ);
      var todo := s.processes[w].pc.todo;
      && Advances(s, t, w)
      && ((t.processes[w].pc.Settling? && t.processes[w].pc.todo == todo[1..] && AllAdmissible(t, todo[1..])) ||
          (t.processes[w].pc.SettleDelete? && t.processes[w].pc.todo == todo && AllAdmissible(t, todo[1..])))
  {
    hide FailJob, CancelledRows;
    var todo := s.processes[w].pc.todo;
    assert todo == [todo[0]] + todo[1..];
  }

  lemma SettledLeaks(s: World, w: nat, leak: Leak)
    requires Shut(s, w) && s.processes[w].pc.Settling? && s.processes[w].pc.todo == []
    ensures CanLeak(s, leak)
  {
    hide Effect, Next, Serial, Shut, Inv, KeysOk, RowsTraced, RemoteOk, Mine, RowQuiet, RowPcOk, Rewrite;
    ShutParts(s, w);
    EffectOf(s, SettleCommit(w));
    StepGoes(s, SettleCommit(w), w);
    InsertingLeaks(Next(s, SettleCommit(w)), w, leak);
    Prepend(s, SettleCommit(w), leak);
  }

  lemma {:induction false} SettleDeleteLeaks(s: World, w: nat, leak: Leak)
    requires Shut(s, w) && s.processes[w].pc.SettleDelete?
    requires s.processes[w].pc.todo != [] && AllAdmissible(s, s.processes[w].pc.todo[1..])
    ensures CanLeak(s, leak)
    decreases |s.processes[w].pc.todo|, 0
  {
    hide Effect, Next, Serial, Shut, Inv, KeysOk, RowsTraced, RemoteOk, Mine, RowQuiet, RowPcOk;
    ShutParts(s, w);
    EffectOf(s, SettleDeleted(w, Deleted));
    var e := SettleDeleted(w, Deleted);
    StepGoes(s, e, w);
    SettlingLeaks(Next(s, e), w, leak);
    Prepend(s, e, leak);
  }

  lemma EnteredLeaks(s: World, w: nat, leak: Leak)
    requires Shut(s, w) && s.processes[w].pc.Entered? && EntryCreates(s, s.processes[w].pc.kind)
    ensures CanLeak(s, leak)
  {
    hide Effect, Next, Serial, Shut, Inv, KeysOk, RowsTraced, RemoteOk, Mine, RowQuiet, NewestActive, NextOrdinal, RowPcOk;
    ShutParts(s, w);
    EffectOf(s, Event.Enter(w, true));
    var e := Event.Enter(w, true);
    StepGoes(s, e, w);
    SettlingLeaks(Next(s, e), w, leak);
    Prepend(s, e, leak);
  }

  lemma DispatchingLeaks(s: World, w: nat, leak: Leak)
    requires Shut(s, w) && s.processes[w].pc.Dispatching? && DispatchCreates(s, s.processes[w].mem)
    ensures CanLeak(s, leak)
  {
    hide Effect, Next, Serial, Shut, Inv, KeysOk, RowsTraced, RemoteOk, EntryCreates, DispatchCreates, OnDispatch, ProcessOk;
    ShutParts(s, w);
    var pick: nat := if i :| 0 <= i < |s.attempts| && SessionProtocol.Pending(s.attempts[i]) then i else 0;
    EffectOf(s, Event.Dispatch(w, pick));
    DispatchGoes(s, w, pick);
    var e := Event.Dispatch(w, pick);
    StepGoes(s, e, w);
    SameEntry(s, Next(s, e));
    EnteredLeaks(Next(s, e), w, leak);
    Prepend(s, e, leak);
  }

  lemma DispatchGoes(s: World, w: nat, pick: nat)
    requires w in s.processes && s.processes[w].pc.Dispatching? && DispatchCreates(s, s.processes[w].mem)
    requires SomePending(s) ==> pick < |s.attempts| && SessionProtocol.Pending(s.attempts[pick])
    ensures
      var t := OnDispatch(s, w, pick);
      && Advances(s, t, w) && t.processes[w].pc.Entered? && EntryCreates(s, t.processes[w].pc.kind)
      && t.attempts == s.attempts && t.config == s.config
  {
    hide EntryCreates, NewestActiveIsTriage, RetainedRows;
  }

  lemma SameEntry(s: World, t: World)
    requires t.attempts == s.attempts && t.config == s.config
    ensures forall kind: Kind :: EntryCreates(s, kind) ==> EntryCreates(t, kind)
  {}

  lemma PollGetLeaks(s: World, w: nat)
    requires Shut(s, w) && s.processes[w].pc.PollGet?
    ensures CanLeak(s, SentAttempt)
  {
    hide Effect, Next, Serial, Shut, Inv, KeysOk, RowsTraced, RemoteOk, Mine, RowQuiet;
    ShutParts(s, w);
    EffectOf(s, Event.PollAnswer(w, GetError));
    BoundWasSent(s, s.processes[w].pc.attempt);
    RowLeaks(s, Event.PollAnswer(w, GetError), w, s.processes[w].pc.attempt);
  }

  lemma PollingLeaks(s: World, w: nat)
    requires Shut(s, w) && s.processes[w].pc.Polling?
    ensures CanLeak(s, SentAttempt)
  {
    hide Effect, Next, Serial, Shut, Inv, KeysOk, RowsTraced, RemoteOk, Mine, RowQuiet;
    ShutParts(s, w);
    EffectOf(s, Event.PollCheck(w, false));
    var e := Event.PollCheck(w, false);
    StepGoes(s, e, w);
    PollGetLeaks(Next(s, e), w);
    Prepend(s, e, SentAttempt);
  }

  lemma HandlingLeaks(s: World, w: nat)
    requires Shut(s, w) && s.processes[w].pc.Handling?
    ensures CanLeak(s, SentAttempt)
  {
    hide Effect, Next, Serial, Shut, Inv, KeysOk, RowsTraced, RemoteOk, Mine, RowQuiet;
    ShutParts(s, w);
    EffectOf(s, Event.TimeoutGet(w, WAITING));
    BoundWasSent(s, s.processes[w].pc.attempt);
    RowLeaks(s, Event.TimeoutGet(w, WAITING), w, s.processes[w].pc.attempt);
  }

  lemma DeleteFailedLeaks(s: World, w: nat)
    requires Shut(s, w) && s.processes[w].pc.DeleteFailed? && Reviving(s, s.processes[w])
    ensures CanLeak(s, SentAttempt)
  {
    hide Effect, Next, Serial, Shut, Inv, KeysOk, RowsTraced, RemoteOk, Mine, RowQuiet;
    ShutParts(s, w);
    EffectOf(s, Event.Park(w));
    BoundWasSent(s, s.processes[w].pc.attempt);
    RowLeaks(s, Event.Park(w), w, s.processes[w].pc.attempt);
  }

  lemma DeletingLeaks(s: World, w: nat)
    requires Shut(s, w) && s.processes[w].pc.Deleting? && Reviving(s, s.processes[w])
    ensures CanLeak(s, SentAttempt)
  {
    hide Effect, Next, Serial, Shut, Inv, KeysOk, RowsTraced, RemoteOk, Mine, RowQuiet;
    ShutParts(s, w);
    EffectOf(s, Event.TimeoutDelete(w, DeleteError));
    var e := Event.TimeoutDelete(w, DeleteError);
    StepGoes(s, e, w);
    DeleteFailedLeaks(Next(s, e), w);
    Prepend(s, e, SentAttempt);
  }

  lemma CreatingLeaks(s: World, w: nat, leak: Leak)
    requires Shut(s, w) && Creating(s, s.processes[w])
    ensures CanLeak(s, leak)
  {
    hide Shut, EntryCreates, DispatchCreates, AllAdmissible, CanLeak;
    ShutParts(s, w);
    match s.processes[w].pc
    case Dispatching => DispatchingLeaks(s, w, leak);
    case Entered(_) => EnteredLeaks(s, w, leak);
    case Settling(_, _, _, _) => SettlingLeaks(s, w, leak);
    case SettleDelete(_, _, _, _) => SettleDeleteLeaks(s, w, leak);
    case Inserting(_, _) => InsertingLeaks(s, w, leak);
    case Building(_) => BuildingLeaks(s, w, leak);
    case _ =>
  }

  lemma TooLateLeaks(s: World, w: nat)
    requires Shut(s, w) && TooLate(s, s.processes[w])
    ensures CanLeak(s, SentAttempt)
  {
    hide Shut, EntryCreates, DispatchCreates, AllAdmissible, CanLeak;
    ShutParts(s, w);
    match s.processes[w].pc
    case Polling(_) => PollingLeaks(s, w);
    case PollGet(_) => PollGetLeaks(s, w);
    case Handling(_) => HandlingLeaks(s, w);
    case Deleting(_) => DeletingLeaks(s, w);
    case DeleteFailed(_) => DeleteFailedLeaks(s, w);
    case _ => CreatingLeaks(s, w, SentAttempt);
  }

  // ------------------------------------------------------------------ in time: nothing leaks any more

  predicate Dead(state: L.CaseState) { state == L.Cancelled || state == L.RemediationCancelled }

  /** A cancelled case whose processes are all past the points from which it could leak. */
  ghost predicate Sealed(s: World) {
    && Dead(s.state) && (forall i | 0 <= i < |s.attempts| :: !SentOwner(s.attempts[i]))
    && (forall w <- s.processes :: !TooLate(s, s.processes[w]))
  }

  /** A step of the holder that gets nothing going. */
  ghost predicate Inert(s: World, t: World, w: nat) {
    && w in s.processes && t.state == s.state && |t.attempts| == |s.attempts|
    && (forall i | 0 <= i < |s.attempts| :: SentOwner(t.attempts[i]) ==> SentOwner(s.attempts[i]))
    && (|| t.processes == s.processes - {w}
        || (w in t.processes && t.processes == s.processes[w := t.processes[w]] && !TooLate(t, t.processes[w])))
  }

  /** What a holder of a sealed case may rely on. */
  ghost predicate SealedAt(s: World, w: nat) {
    && Inv(s) && RowsTraced(s) && RemoteOk(s) && w in s.processes && Holder(s.processes[w])
    && ProcessOk(s, s.processes[w], false) && !TooLate(s, s.processes[w])
    && Dead(s.state) && forall i | 0 <= i < |s.attempts| :: !SentOwner(s.attempts[i])
  }

  lemma Ends(s: World, t: World, w: nat)
    requires w in s.processes && t.state == s.state && |t.attempts| == |s.attempts|
    requires forall i | 0 <= i < |s.attempts| :: SentOwner(t.attempts[i]) ==> SentOwner(s.attempts[i])
    requires t.processes == s.processes - {w} || t.processes == s.processes[w := s.processes[w].(pc := Abandoning)]
    ensures Inert(s, t, w)
  {
    hide SentOwner;
  }

  lemma DeadEnd(s: World, w: nat, to: L.CaseState)
    requires Dead(s.state) && w in s.processes
    ensures !CanMove(s, w, to)
  {}

  lemma MovesNowhere(s: World, changed: World, w: nat, to: L.CaseState, pc: Pc)
    requires Dead(s.state) && w in s.processes && OnlyRows(s, changed)
    ensures Inert(s, MoveOn(s, changed, w, to, pc), w) && Inert(s, MoveAndStop(s, changed, w, to), w)
  {
    hide Inert, SentOwner, CanMove;
    DeadEnd(changed, w, to);
    Ends(s, MoveOn(s, changed, w, to, pc), w);
    Ends(s, MoveAndStop(s, changed, w, to), w);
  }

  lemma FailsNowhere(s: World, changed: World, w: nat)
    requires Dead(s.state) && w in s.processes && OnlyRows(s, changed)
    requires forall i | 0 <= i < |s.attempts| :: !SentOwner(changed.attempts[i])
    ensures Inert(s, FailJob(s, changed, w), w)
  {
    hide Inert, CanMove;
    var mem := s.processes[w].mem;
    assert LiveRows(changed.attempts) == {};
    DeadEnd(changed, w, L.PhaseForState(mem).failed);
    Ends(s, FailJob(s, changed, w), w);
  }

  lemma GoesOn(s: World, m: World, w: nat, pc: Pc)
    requires w in s.processes && m.state == s.state && m.processes == s.processes && |m.attempts| == |s.attempts|
    requires forall i | 0 <= i < |s.attempts| :: SentOwner(m.attempts[i]) ==> SentOwner(s.attempts[i])
    requires !TooLate(Goto(m, w, pc), s.processes[w].(pc := pc))
    ensures Inert(s, Goto(m, w, pc), w)
  {
    hide SentOwner, TooLate;
  }

  /** Program points from which nothing is created or revived. */
  predicate Past(pc: Pc) {
    !pc.Dispatching? && !pc.Entered? && !pc.Settling? && !pc.SettleDelete? && !pc.Inserting? && !pc.Building? &&
    !pc.Polling? && !pc.PollGet? && !pc.Handling? && !pc.Deleting? && !pc.DeleteFailed?
  }

  lemma GoesPast(s: World, m: World, w: nat, pc: Pc)
    requires w in s.processes && m.state == s.state && m.processes == s.processes && |m.attempts| == |s.attempts|
    requires forall i | 0 <= i < |s.attempts| :: SentOwner(m.attempts[i]) ==> SentOwner(s.attempts[i])
    requires Past(pc)
    ensures Inert(s, Goto(m, w, pc), w)
  {
    hide SentOwner, Creating, Reviving, Inert;
    NotTooLate(Goto(m, w, pc), s.processes[w].(pc := pc));
    GoesOn(s, m, w, pc);
  }

  lemma NotTooLate(s: World, p: Process)
    requires Past(p.pc)
    ensures !TooLate(s, p)
  {}

  /** One row is rewritten, and it does not become a sent owner. */
  lemma RowStays(s: World, i: nat, b: Attempt)
    requires i < |s.attempts| && (SentOwner(b) ==> SentOwner(s.attempts[i]))
    ensures forall j | 0 <= j < |s.attempts| :: SentOwner(SetRow(s, i, b).attempts[j]) ==> SentOwner(s.attempts[j])
  {
    hide SentOwner;
  }

  // One lemma per step of a holder.

  lemma SealedStart(s: World, w: nat, e: Event)
    requires SealedAt(s, w) && (e.Evaluate? || e.Admit? || e.PipelineMove? || e.PipelineFail?) && Actor(e) == Some(w)
    ensures Effect(s, e) == s || Inert(s, Effect(s, e), w)
  {
    hide Inert, MoveOn, MoveAndStop, FailJob, Inv, RowsTraced, RemoteOk, ProcessOk, SentOwner;
    match e
    case Evaluate(_) => MovesNowhere(s, s, w, L.EligibilityEvaluated, Evaluated);
    case Admit(_, eligible) =>
      MovesNowhere(s, s, w, L.TriageCreateIntent, Entered(Triage));
      MovesNowhere(s, s, w, L.PolicyRejected, Evaluated);
    case PipelineMove(_, to, flagged) =>
    case PipelineFail(_) => FailsNowhere(s, s, w);
  }

  lemma SealedDispatch(s: World, w: nat, pick: nat)
    requires SealedAt(s, w)
    ensures OnDispatch(s, w, pick) == s || Inert(s, OnDispatch(s, w, pick), w)
  {
    hide Inv, RowsTraced, RemoteOk, ProcessOk, SentOwner, Inert, OnDispatch, DispatchCreates, EntryCreates;
    var t := OnDispatch(s, w, pick);
    DispatchOutcome(s, w, pick);
    if t == Stop(s, w) {
      Ends(s, t, w);
    } else if t != s {
      var pc := t.processes[w].pc;
      if pc.Entered? {
        SameEntry(t, s);
        EntryIsOff(s, w, pick);
        GoesOn(s, s, w, pc);
      } else {
        GoesPast(s, s, w, pc);
      }
    }
  }

  /** The first step of a process that holds the case: it stops, enters a run, or goes past it. */
  lemma DispatchOutcome(s: World, w: nat, pick: nat)
    requires w in s.processes
    ensures
      var t := OnDispatch(s, w, pick);
      || t == s || t == Stop(s, w)
      || (s.processes[w].pc.Dispatching? && w in t.processes && t == Goto(s, w, t.processes[w].pc) &&
          (t.processes[w].pc.Entered? || t.processes[w].pc.Terminating? || t.processes[w].pc.Rereading?))
  {
    hide NewestActiveIsTriage, RetainedRows, Select;
  }

  /** A run that is entered from a sealed case would not create anything. */
  lemma EntryIsOff(s: World, w: nat, pick: nat)
    requires w in s.processes && s.processes[w].pc.Dispatching? && !DispatchCreates(s, s.processes[w].mem)
    requires w in OnDispatch(s, w, pick).processes && OnDispatch(s, w, pick).processes[w].pc.Entered?
    ensures !EntryCreates(s, OnDispatch(s, w, pick).processes[w].pc.kind)
  {
    hide EntryCreates, RetainedRows, Active;
    if NewestActiveIsTriage(s) {
      var active := Select(s.attempts, Active, |s.attempts|);
      assert active[0] in active;
      ActiveIsResumed(s, active[0]);
    }
    if pick < |s.attempts| && SessionProtocol.Pending(s.attempts[pick]) { PendingIsResumed(s, pick); }
  }

  lemma ActiveIsResumed(s: World, i: nat)
    requires i < |s.attempts| && Active(s.attempts[i])
    ensures !EntryCreates(s, s.attempts[i].kind)
  {
    hide NextOrdinal;
    assert ActiveOf(s.attempts[i], s.attempts[i].kind);
  }

  lemma PendingIsResumed(s: World, i: nat)
    requires i < |s.attempts| && SessionProtocol.Pending(s.attempts[i])
    ensures !EntryCreates(s, s.attempts[i].kind)
  {
    hide EntryCreates;
    ActiveIsResumed(s, i);
  }

  /** A settling loop that is entered from a sealed case meets an attempt that stops it. */
  lemma PlanStops(s: World, w: nat)
    requires w in s.processes && s.processes[w].pc.Entered? && !EntryCreates(s, s.processes[w].pc.kind)
    requires NewestActive(s.attempts, s.processes[w].pc.kind, |s.attempts|).None?
    requires NextOrdinal(s.attempts, s.processes[w].pc.kind) <= s.config.maxAttempts
    ensures Inert(s, Goto(s, w, EntryPlan(s, s.processes[w].pc.kind)), w)
  {
    hide Inert, NewestActive, NextOrdinal, Admissible, SentOwner;
    var kind := s.processes[w].pc.kind;
    var plan := EntryPlan(s, kind);
    var j :| 0 <= j < |s.attempts| && Unsettled(s.attempts[j], kind) && !Admissible(s.attempts[j]);
    assert j in plan.todo;
    GoesOn(s, s, w, plan);
  }

  lemma SealedEnter(s: World, w: nat, granted: bool)
    requires SealedAt(s, w)
    ensures OnEnter(s, w, granted) == s || Inert(s, OnEnter(s, w, granted), w)
  {
    hide Inv, RowsTraced, RemoteOk, ProcessOk, Inert, MoveOn, FailJob;
    if OnEnter(s, w, granted) != s {
      var kind := s.processes[w].pc.kind;
      match NewestActive(s.attempts, kind, |s.attempts|)
      case None =>
        var n := NextOrdinal(s.attempts, kind);
        if !granted {
          Ends(s, Stop(s, w), w);
        } else if n > s.config.maxAttempts {
          FailsNowhere(s, s, w);
        } else {
          PlanStops(s, w);
        }
      case Some(i) =>
        if s.attempts[i].session.Some? { BoundWasSent(s, i); }
        GoesPast(s, s, w, Sweeping(i));
        GoesPast(s, s, w, BeginReconcile(i));
    }
  }

  /** The outcomes of one settling step; an attempt that may not be replaced ends the job. */
  lemma SettleStepOutcome(s: World, w: nat, got: GetAnswer)
    requires w in s.processes
    ensures
      var t := OnSettleStep(s, w, got);
      t == s ||
      (s.processes[w].pc.Settling? && s.processes[w].pc.todo != [] &&
       var Settling(kind, n, todo, closed) := s.processes[w].pc;
       || t == FailJob(s, CancelledRows(s, closed), w)
       || (todo[0] < |s.attempts| && Admissible(s.attempts[todo[0]]) &&
           t in {Goto(s, w, Settling(kind, n, todo[1..], closed + {todo[0]})), Goto(s, w, Settling(kind, n, todo[1..], closed)),
                 Goto(s, w, SettleDelete(kind, n, todo, closed))}))
  {
    hide FailJob, TruthfulGet, CancelledRows, Goto;
  }

  /** The attempt that will stop a settling loop of a sealed case. */
  lemma StopsAhead(s: World, w: nat) returns (bad: nat)
    requires w in s.processes && s.processes[w].pc.Settling? && Holder(s.processes[w]) && !TooLate(s, s.processes[w])
    ensures bad in s.processes[w].pc.todo && bad < |s.attempts| && !Admissible(s.attempts[bad])
  {
    hide DispatchCreates, EntryCreates;
    bad :| bad in s.processes[w].pc.todo && bad < |s.attempts| && !Admissible(s.attempts[bad]);
  }

  lemma SealedSettleStep(s: World, w: nat, got: GetAnswer)
    requires SealedAt(s, w)
    ensures OnSettleStep(s, w, got) == s || Inert(s, OnSettleStep(s, w, got), w)
  {
    hide SealedAt, TooLate, ProcessOk, Inert, FailJob, OnSettleStep, Goto, CancelledRows, Admissible;
    AtSealed(s, w);
    SettleStepOutcome(s, w, got);
    if OnSettleStep(s, w, got) != s {
      var Settling(kind, n, todo, closed) := s.processes[w].pc;
      SealedFailure(s, w, closed);
      var bad := StopsAhead(s, w);
      assert todo == [todo[0]] + todo[1..];
      if bad != todo[0] {
        SettlesOn(s, w, Settling(kind, n, todo[1..], closed + {todo[0]}), bad);
        SettlesOn(s, w, Settling(kind, n, todo[1..], closed), bad);
        SettlesOn(s, w, SettleDelete(kind, n, todo, closed), bad);
      }
    }
  }

  lemma SameInert(s: World, m: World, t: World, w: nat)
    requires Inert(m, t, w) && m.state == s.state && m.attempts == s.attempts && m.processes == s.processes
    ensures Inert(s, t, w)
  {
    hide SentOwner, TooLate;
  }

  lemma SealedFailure(s: World, w: nat, closed: set<nat>)
    requires SealedAt(s, w)
    ensures Inert(s, FailJob(s, CancelledRows(s, closed), w), w)
  {
    hide Inv, RowsTraced, RemoteOk, ProcessOk, Inert, FailJob;
    FailsNowhere(s, CancelledRows(s, closed), w);
  }

  /** The settling loop goes on to an attempt that will stop it. */
  lemma SettlesOn(s: World, w: nat, pc: Pc, bad: nat)
    requires w in s.processes && bad < |s.attempts| && !Admissible(s.attempts[bad])
    requires (pc.Settling? && bad in pc.todo) || (pc.SettleDelete? && pc.todo != [] && bad in pc.todo[1..])
    ensures Inert(s, Goto(s, w, pc), w)
  {
    hide SentOwner;
  }

  lemma SealedSettleDeleted(s: World, w: nat, answer: DeleteAnswer)
    requires SealedAt(s, w)
    ensures OnSettleDeleted(s, w, answer) == s || Inert(s, OnSettleDeleted(s, w, answer), w)
  {
    hide SealedAt, ProcessOk, Inert, FailJob, CancelledRows, Goto, DispatchCreates, EntryCreates, Reviving, Delete;
    if OnSettleDeleted(s, w, answer) != s {
      AtSealed(s, w);
      var SettleDelete(kind, n, todo, closed) := s.processes[w].pc;
      if answer.DeleteError? {
        SealedFailure(s, w, closed);
      } else {
        var bad :| bad in todo[1..] && bad < |s.attempts| && !Admissible(s.attempts[bad]);
        var t := AfterDelete(s, s.attempts[todo[0]].session.value, answer);
        SettlesOn(t, w, Settling(kind, n, todo[1..], closed + {todo[0]}), bad);
        SameInert(s, t, Goto(t, w, Settling(kind, n, todo[1..], closed + {todo[0]})), w);
      }
    }
  }

  lemma SealedCreate(s: World, w: nat, e: Event)
    requires SealedAt(s, w) && Actor(e) == Some(w) && (e.SettleCommit? || e.Insert? || e.Build?)
    ensures Effect(s, e) == s
  {
    hide Inv, RowsTraced, RemoteOk, ProcessOk, SentOwner, DispatchCreates, EntryCreates, Reviving;
  }

  lemma SealedPoll(s: World, w: nat, e: Event)
    requires SealedAt(s, w) && Actor(e) == Some(w) && (e.PollCheck? || e.PollAnswer? || e.TimeoutGet?)
    ensures Effect(s, e) == s
  {
    hide Inv, RowsTraced, RemoteOk, ProcessOk, SentOwner, Creating;
  }

  lemma SealedPost(s: World, w: nat, posted: PostAnswer, sid: nat)
    requires SealedAt(s, w)
    ensures OnSendPost(s, w, posted, sid) == s
  {
    hide Inv, RowsTraced, RemoteOk, RowQuiet;
    assert CreatorsOk(s) by { InvParts(s); }
    assert CreatorOk(s, s.processes[w]);
  }

  lemma InvParts(s: World)
    requires Inv(s)
    ensures CreatorsOk(s) && RowsOk(s)
  {}

  lemma SealedAttach(s: World, w: nat)
    requires SealedAt(s, w)
    ensures OnAttach(s, w) == s || Inert(s, OnAttach(s, w), w)
  {
    hide Inv, RowsTraced, RemoteOk, ProcessOk, Inert, CanMove;
    if OnAttach(s, w) != s {
      var Attaching(i, sid, created) := s.processes[w].pc;
      var a := s.attempts[i].(createState := created, session := Some(sid));
      DeadEnd(SetRow(s, i, a.(status := Running, reason := NoReason)), w, PhaseOf(a.kind).running);
      var b := SessionModel.Closed(a, Cancelled);
      RowStays(s, i, b);
      GoesPast(s, SetRow(s, i, b), w, Orphaned(sid));
    }
  }

  lemma SealedDeleteOrphan(s: World, w: nat, answer: DeleteAnswer)
    requires SealedAt(s, w)
    ensures OnDeleteOrphan(s, w, answer) == s || Inert(s, OnDeleteOrphan(s, w, answer), w)
  {
    hide Inv, RowsTraced, RemoteOk, ProcessOk, Inert, SentOwner;
    if OnDeleteOrphan(s, w, answer) != s { Ends(s, OnDeleteOrphan(s, w, answer), w); }
  }

  /** The row at hand is closed, and the case with it; or everything is rolled back. */
  lemma RowCloses(s: World, i: nat, b: Attempt, w: nat, to: L.CaseState, pc: Pc)
    requires SealedAt(s, w) && i < |s.attempts|
    ensures Inert(s, MoveOn(s, SetRow(s, i, b), w, to, pc), w) && Inert(s, MoveAndStop(s, SetRow(s, i, b), w, to), w)
    ensures !Owning(b) ==> Inert(s, FailJob(s, SetRow(s, i, b), w), w)
  {
    hide Inv, RowsTraced, RemoteOk, ProcessOk, Inert, MoveOn, MoveAndStop, FailJob;
    MovesNowhere(s, SetRow(s, i, b), w, to, pc);
    if !Owning(b) { FailsNowhere(s, SetRow(s, i, b), w); }
  }

  lemma SealedRefusal(s: World, w: nat)
    requires SealedAt(s, w)
    ensures OnRecordRefusal(s, w) == s || Inert(s, OnRecordRefusal(s, w), w)
  {
    hide Inert, MoveOn, MoveAndStop, FailJob, SetRow, SealedAt, TooLate, ProcessOk;
    if OnRecordRefusal(s, w) != s {
      var i := s.processes[w].pc.attempt;
      var a := s.attempts[i];
      RowCloses(s, i, SessionModel.Closed(a, Failed).(createState := ApiError), w, L.Failed, Abandoning);
    }
  }

  lemma SealedUnknown(s: World, w: nat)
    requires SealedAt(s, w)
    ensures OnRecordUnknown(s, w) == s || Inert(s, OnRecordUnknown(s, w), w)
  {
    hide Inert, MoveOn, MoveAndStop, FailJob, SetRow, SealedAt, TooLate, ProcessOk;
    if OnRecordUnknown(s, w) != s {
      var i := s.processes[w].pc.attempt;
      var a := s.attempts[i];
      var b := a.(createState := Uncertain, status := Reconciling, reason := OtherReason);
      RowCloses(s, i, b, w, PhaseOf(a.kind).reconciling, BeginReconcile(i));
    }
  }

  lemma SealedUnmatched(s: World, w: nat)
    requires SealedAt(s, w)
    ensures OnBlockUnmatched(s, w) == s || Inert(s, OnBlockUnmatched(s, w), w)
  {
    hide Inert, MoveOn, MoveAndStop, FailJob, SetRow, SealedAt, TooLate, ProcessOk;
    if OnBlockUnmatched(s, w) != s {
      var i := s.processes[w].pc.attempt;
      var a := s.attempts[i];
      var b := SessionModel.Closed(a, Blocked).(createState := Unresolved, reason := OtherReason);
      RowCloses(s, i, b, w, PhaseOf(a.kind).humanBlocked, Abandoning);
    }
  }

  lemma SealedLost(s: World, w: nat)
    requires SealedAt(s, w)
    ensures OnRecordLost(s, w) == s || Inert(s, OnRecordLost(s, w), w)
  {
    hide Inert, MoveOn, MoveAndStop, FailJob, SetRow, SealedAt, TooLate, ProcessOk;
    if OnRecordLost(s, w) != s {
      var i := s.processes[w].pc.attempt;
      var a := s.attempts[i];
      RowCloses(s, i, SessionModel.Closed(a, Failed), w, L.Failed, Abandoning);
    }
  }

  lemma SealedCloseOut(s: World, w: nat, expired: bool)
    requires SealedAt(s, w)
    ensures OnCloseOut(s, w, expired) == s || Inert(s, OnCloseOut(s, w, expired), w)
  {
    hide Inert, MoveOn, MoveAndStop, FailJob, SetRow, SealedAt, TooLate, ProcessOk;
    if OnCloseOut(s, w, expired) != s {
      var i := s.processes[w].pc.attempt;
      var a := s.attempts[i];
      var phase := PhaseOf(a.kind);
      if a.reason.CancelRequested? && !expired {
        RowCloses(s, i, SessionModel.Closed(a, Cancelled).(reason := NoReason), w, phase.cancelled, Abandoning);
      } else if a.reason.WorkerError? && !expired {
        RowCloses(s, i, SessionModel.Closed(a, Failed).(reason := NoReason), w, phase.failed, Abandoning);
      } else {
        RowCloses(s, i, SessionModel.Closed(a, TimedOut).(reason := NoReason), w, phase.timedOut, Abandoning);
      }
    }
  }

  lemma AtSealed(s: World, w: nat)
    requires SealedAt(s, w)
    ensures w in s.processes && Holder(s.processes[w]) && Dead(s.state)
    ensures ProcessOk(s, s.processes[w], false) && !TooLate(s, s.processes[w])
  {}

  lemma SealedStartReconcile(s: World, w: nat)
    requires SealedAt(s, w)
    ensures OnStartReconcile(s, w) == s || Inert(s, OnStartReconcile(s, w), w)
  {
    hide Inv, RowsTraced, RemoteOk, Inert, MoveOn, RowQuiet, Mine;
    if OnStartReconcile(s, w) != s {
      var i := s.processes[w].pc.attempt;
      var a := s.attempts[i].(status := Reconciling);
      var marked := if a.createState == CreateState.Pending then a.(createState := Uncertain, reason := OtherReason) else a;
      RowStays(s, i, marked);
      MovesNowhere(s, SetRow(s, i, marked), w, PhaseOf(a.kind).reconciling, Searching(i));
      GoesPast(s, SetRow(s, i, marked), w, Searching(i));
    }
  }

  lemma SealedSearch(s: World, w: nat, found: SearchAnswer)
    requires SealedAt(s, w)
    ensures OnSearch(s, w, found) == s || Inert(s, OnSearch(s, w, found), w)
  {
    hide Inv, RowsTraced, RemoteOk, ProcessOk, Inert, SentOwner;
    if OnSearch(s, w, found) != s { GoesPast(s, s, w, OnSearch(s, w, found).processes[w].pc); }
  }

  lemma SealedSettleOutcome(s: World, w: nat)
    requires SealedAt(s, w)
    ensures OnSettleOutcome(s, w) == s || Inert(s, OnSettleOutcome(s, w), w)
  {
    hide Inv, RowsTraced, RemoteOk, ProcessOk, Inert, MoveAndStop, FailJob, SetRow, TooLate, L.Allowed;
    if OnSettleOutcome(s, w) != s {
      var Settled(i, d, output) := s.processes[w].pc;
      var a := s.attempts[i];
      match d
      case Finished =>
        var b := a.(output := output, finished := true);
        RowStays(s, i, b);
        assert SetRow(s, i, b).state == s.state && SetRow(s, i, b).processes == s.processes by { SetRowFrame(s, i, b); }
        GoesPast(s, SetRow(s, i, b), w, Finishing(i));
      case WaitingForHuman =>
        RowCloses(s, i, SessionModel.Closed(a, Blocked), w, PhaseOf(a.kind).humanBlocked, Abandoning);
      case _ =>
        RowCloses(s, i, SessionModel.Closed(a, Failed), w, L.Failed, Abandoning);
    }
  }

  lemma SetRowFrame(s: World, i: nat, b: Attempt)
    requires i < |s.attempts|
    ensures SetRow(s, i, b) == s.(attempts := s.attempts[i := b])
  {}

  lemma SealedFinish(s: World, w: nat, valid: bool)
    requires SealedAt(s, w)
    ensures OnFinish(s, w, valid) == s || Inert(s, OnFinish(s, w, valid), w)
  {
    hide Inv, RowsTraced, RemoteOk, ProcessOk, Inert, MoveAndStop, FailJob, CanMove, TooLate, L.Allowed;
    if OnFinish(s, w, valid) != s {
      var i := s.processes[w].pc.attempt;
      var a := s.attempts[i];
      RowCloses(s, i, a.(status := Succeeded), w, L.OutputValidating, Abandoning);
      RowCloses(s, i, a.(status := Failed, output := false), w, L.Failed, Abandoning);
      DeadEnd(SetRow(s, i, a.(status := Succeeded)), w, L.Triaged);
      Ends(s, Lost(s, w), w);
    }
  }

  lemma SealedTimeoutDelete(s: World, w: nat, answer: DeleteAnswer)
    requires SealedAt(s, w)
    ensures OnTimeoutDelete(s, w, answer) == s || Inert(s, OnTimeoutDelete(s, w, answer), w)
  {
    hide Inv, RowsTraced, RemoteOk, ProcessOk, Inert, SentOwner;
    if OnTimeoutDelete(s, w, answer) != s {
      var i := s.processes[w].pc.attempt;
      var t := AfterDelete(s, s.attempts[i].session.value, answer);
      GoesOn(s, t, w, if answer.DeleteError? then DeleteFailed(i) else Closing(i));
    }
  }

  lemma SealedPark(s: World, w: nat)
    requires SealedAt(s, w)
    ensures OnPark(s, w) == s || Inert(s, OnPark(s, w), w)
  {
    hide Inv, RowsTraced, RemoteOk, ProcessOk, Inert, SentOwner, MoveAndStop;
    if OnPark(s, w) != s {
      var i := s.processes[w].pc.attempt;
      var a := s.attempts[i];
      var keep := a.reason.CancelRequested? || a.reason.WorkerError?;
      var b := a.(status := TerminationPending, reason := if keep then a.reason else OtherReason);
      MovesNowhere(s, SetRow(s, i, b), w, PhaseOf(a.kind).terminationPending, Abandoning);
    }
  }

  lemma SealedSweep(s: World, w: nat, sweep: SweepAnswer)
    requires SealedAt(s, w)
    ensures OnSweepTag(s, w, sweep) == s || Inert(s, OnSweepTag(s, w, sweep), w)
  {
    hide Inv, RowsTraced, RemoteOk, ProcessOk, Inert;
    if OnSweepTag(s, w, sweep) != s {
      var i := s.processes[w].pc.attempt;
      if sweep.Swept? { GoesPast(s, AfterSweep(s, sweep), w, Closing(i)); }
      else { Ends(s, OnSweepTag(s, w, sweep), w); }
    }
  }

  lemma SealedTerminateOne(s: World, w: nat, answer: DeleteAnswer, sweep: SweepAnswer)
    requires SealedAt(s, w)
    ensures OnTerminateOne(s, w, answer, sweep) == s || Inert(s, OnTerminateOne(s, w, answer, sweep), w)
  {
    hide Inv, RowsTraced, RemoteOk, ProcessOk, Inert, SentOwner, Creating, Reviving;
    var t := OnTerminateOne(s, w, answer, sweep);
    if t != s {
      GoesPast(s, t.(processes := s.processes), w, t.processes[w].pc);
      assert Goto(t.(processes := s.processes), w, t.processes[w].pc) == t;
    }
  }

  lemma SealedTerminateCommit(s: World, w: nat)
    requires SealedAt(s, w)
    ensures OnTerminateCommit(s, w) == s || Inert(s, OnTerminateCommit(s, w), w)
  {
    hide SealedAt, Inert, MoveAndStop, ProcessOk, TooLate;
    if OnTerminateCommit(s, w) != s {
      AtSealed(s, w);
      var Terminating(_, closed, parked) := s.processes[w].pc;
      MovesNowhere(s, TerminatedRows(s, closed, parked), w, L.PhaseForState(s.processes[w].mem).cancelled, Abandoning);
      if parked != {} {
        SealedParked(s, w, closed, parked);
        Ends(s, OnTerminateCommit(s, w), w);
      }
    }
  }

  /** What is parked owned a session before, so it was not sent. */
  lemma SealedParked(s: World, w: nat, closed: set<nat>, parked: set<nat>)
    requires SealedAt(s, w) && s.processes[w].pc == Terminating([], closed, parked)
    ensures
      var t := TerminatedRows(s, closed, parked);
      forall i | 0 <= i < |s.attempts| :: SentOwner(t.attempts[i]) ==> SentOwner(s.attempts[i])
  {
    hide Inv, RowsTraced, RemoteOk, RowQuiet, RowPcOk, TooLate;
  }

  lemma SealedReread(s: World, w: nat, got: GetAnswer)
    requires SealedAt(s, w)
    ensures OnReread(s, w, got) == s || Inert(s, OnReread(s, w, got), w)
  {
    hide Inv, RowsTraced, RemoteOk, ProcessOk, Inert, Creating, Reviving;
    var t := OnReread(s, w, got);
    if t != s {
      GoesPast(s, t.(processes := s.processes), w, t.processes[w].pc);
      assert Goto(t.(processes := s.processes), w, t.processes[w].pc) == t;
    }
  }

  lemma SealedIngest(s: World, w: nat)
    requires SealedAt(s, w)
    ensures OnIngest(s, w) == s || Inert(s, OnIngest(s, w), w)
  {
    hide Inv, RowsTraced, RemoteOk, RowPcOk, Inert, SentOwner, OnIngest;
    if OnIngest(s, w) != s {
      SealedIngestEnds(s, w);
      Ends(s, OnIngest(s, w), w);
    }
  }

  lemma SealedIngestEnds(s: World, w: nat)
    requires SealedAt(s, w) && OnIngest(s, w) != s
    ensures OnIngest(s, w) == Stop(s, w) || OnIngest(s, w) == Lost(s, w)
  {
    hide Inv, RowsTraced, RemoteOk, RowPcOk, SentOwner, RereadingOk, Chosen;
    if s.processes[w].pc.found != [] { LateIngest(s, w); }
  }

  lemma SealedAbandon(s: World, w: nat)
    requires SealedAt(s, w)
    ensures OnAbandon(s, w) == s || Inert(s, OnAbandon(s, w), w)
  {
    hide Inv, RowsTraced, RemoteOk, ProcessOk, Inert;
    if OnAbandon(s, w) != s { Ends(s, OnAbandon(s, w), w); }
  }

  // ------------------------------------------------------------------ a sealed case stays sealed

  lemma SealedEarly(s: World, w: nat, e: Event)
    requires SealedAt(s, w) && WorkerOf(e) == Some(w) && Early(e)
    ensures Effect(s, e) == s || Inert(s, Effect(s, e), w)
  {
    hide SealedAt, Inert;
    hide OnClaim, OnOperatorReconcile, OnRemoteStops, OnOperatorCancel, OnOperatorRetry,
      OnApprovalMove, OnEvaluate, OnAdmit, OnDispatch, OnPipelineMove, OnPipelineFail, OnEnter,
      OnSettleStep, OnSettleDeleted, OnSettleCommit, OnInsert, OnBuild, OnSendPost, OnAttach,
      OnDeleteOrphan, OnRecordRefusal, OnRecordUnknown, OnStartReconcile, OnSearch,
      OnBlockUnmatched, OnPollCheck, OnPollAnswer, OnRecordLost, OnSettleOutcome, OnFinish,
      OnTimeoutGet, OnTimeoutDelete, OnPark, OnSweepTag, OnCloseOut, OnTerminateOne,
      OnTerminateCommit, OnReread, OnIngest, OnAbandon;
    match e
    case Evaluate(_) => SealedStart(s, w, e);
    case Admit(_, _) => SealedStart(s, w, e);
    case PipelineMove(_, _, _) => SealedStart(s, w, e);
    case PipelineFail(_) => SealedStart(s, w, e);
    case Dispatch(_, pick) => SealedDispatch(s, w, pick);
    case Enter(_, granted) => SealedEnter(s, w, granted);
    case SettleStep(_, got) => SealedSettleStep(s, w, got);
    case SettleDeleted(_, answer) => SealedSettleDeleted(s, w, answer);
    case SettleCommit(_) => SealedCreate(s, w, e);
    case Attach(_) => SealedAttach(s, w);
    case DeleteOrphan(_, answer) => SealedDeleteOrphan(s, w, answer);
    case RecordRefusal(_) => SealedRefusal(s, w);
    case RecordUnknown(_) => SealedUnknown(s, w);
    case StartReconcile(_) => SealedStartReconcile(s, w);
  }

  lemma SealedLate(s: World, w: nat, e: Event)
    requires SealedAt(s, w) && (WorkerOf(e) == Some(w) || (Actor(e) == Some(w) && (e.Insert? || e.SendPost?))) && !Early(e)
    ensures Effect(s, e) == s || Inert(s, Effect(s, e), w)
  {
    hide SealedAt, Inert;
    hide OnClaim, OnOperatorReconcile, OnRemoteStops, OnOperatorCancel, OnOperatorRetry,
      OnApprovalMove, OnEvaluate, OnAdmit, OnDispatch, OnPipelineMove, OnPipelineFail, OnEnter,
      OnSettleStep, OnSettleDeleted, OnSettleCommit, OnInsert, OnBuild, OnSendPost, OnAttach,
      OnDeleteOrphan, OnRecordRefusal, OnRecordUnknown, OnStartReconcile, OnSearch,
      OnBlockUnmatched, OnPollCheck, OnPollAnswer, OnRecordLost, OnSettleOutcome, OnFinish,
      OnTimeoutGet, OnTimeoutDelete, OnPark, OnSweepTag, OnCloseOut, OnTerminateOne,
      OnTerminateCommit, OnReread, OnIngest, OnAbandon;
    match e
    case Insert(_, _, _) => SealedCreate(s, w, e);
    case Build(_, _) => SealedCreate(s, w, e);
    case SendPost(_, posted, sid) => SealedPost(s, w, posted, sid);
    case Search(_, found) => SealedSearch(s, w, found);
    case BlockUnmatched(_) => SealedUnmatched(s, w);
    case PollCheck(_, _) => SealedPoll(s, w, e);
    case PollAnswer(_, _) => SealedPoll(s, w, e);
    case RecordLost(_) => SealedLost(s, w);
    case SettleOutcome(_) => SealedSettleOutcome(s, w);
    case Finish(_, valid) => SealedFinish(s, w, valid);
    case TimeoutGet(_, _) => SealedPoll(s, w, e);
    case TimeoutDelete(_, answer) => SealedTimeoutDelete(s, w, answer);
    case Park(_) => SealedPark(s, w);
    case SweepTag(_, sweep) => SealedSweep(s, w, sweep);
    case CloseOut(_, expired) => SealedCloseOut(s, w, expired);
    case TerminateOne(_, answer, sweep) => SealedTerminateOne(s, w, answer, sweep);
    case TerminateCommit(_) => SealedTerminateCommit(s, w);
    case Reread(_, got) => SealedReread(s, w, got);
    case Ingest(_) => SealedIngest(s, w);
    case Abandon(_) => SealedAbandon(s, w);
  }

  lemma AtHolder(s: World, w: nat)
    requires AllOk(s) && Sealed(s) && w in s.processes && Holder(s.processes[w])
    ensures SealedAt(s, w)
  {
    hide Inv, Own, KeysOk, TooLate, SentOwner;
    AtProcess(s, w, false);
  }

  lemma InertKeeps(s: World, t: World, w: nat)
    requires AllOk(s) && Sealed(s) && Inert(s, t, w) && Holder(s.processes[w])
    ensures Sealed(t)
  {
    hide Inv, Own, KeysOk, Creating, Reviving, SentOwner;
    assert OneHolder(s) by { AtTriaging(s, false); }
  }

  /** An operator's request only adds output. */
  lemma AssistsSealed(s: World, t: World, w: nat)
    requires Sealed(s) && Assists(s, t, w) && t.config == s.config
    ensures Sealed(t)
  {
    forall i | 0 <= i < |s.attempts|
      ensures !SentOwner(t.attempts[i]) && Admissible(t.attempts[i]) == Admissible(s.attempts[i])
      ensures t.attempts[i].kind == s.attempts[i].kind && t.attempts[i].status == s.attempts[i].status
      ensures t.attempts[i].ordinal == s.attempts[i].ordinal
    {
      assert Noted(s.attempts[i], t.attempts[i]) && !SentOwner(s.attempts[i]);
    }
    forall v <- t.processes ensures !TooLate(t, t.processes[v]) {
      if v != w { SameLateness(s, t, s.processes[v]); }
    }
  }

  ghost predicate SameOutline(s: World, t: World) {
    && t.config == s.config && |t.attempts| == |s.attempts|
    && forall i | 0 <= i < |s.attempts| ::
         && t.attempts[i].kind == s.attempts[i].kind && t.attempts[i].status == s.attempts[i].status
         && t.attempts[i].ordinal == s.attempts[i].ordinal && Admissible(t.attempts[i]) == Admissible(s.attempts[i])
  }

  lemma SameLateness(s: World, t: World, p: Process)
    requires SameOutline(s, t)
    ensures TooLate(t, p) == TooLate(s, p)
  {
    hide Admissible, EntryCreates;
    SameEntries(s, t, Triage);
    SameEntries(s, t, Remediation);
    if SomePending(s) { SamePending(s, t); }
    if SomePending(t) { SamePending(t, s); }
    hide SomePending;
    match p.pc
    case Settling(_, _, todo, _) => assert AllAdmissible(s, todo) == AllAdmissible(t, todo);
    case SettleDelete(_, _, todo, _) => assert todo != [] ==> AllAdmissible(s, todo[1..]) == AllAdmissible(t, todo[1..]);
    case Deleting(i) => assert Reviving(s, p) == Reviving(t, p);
    case DeleteFailed(i) => assert Reviving(s, p) == Reviving(t, p);
    case Dispatching => SameDispatch(s, t, p.mem);
    case Entered(kind) => SameEntries(s, t, kind);
    case _ =>
  }

  lemma SameDispatch(s: World, t: World, mem: L.CaseState)
    requires EntryCreates(s, Triage) == EntryCreates(t, Triage) && EntryCreates(s, Remediation) == EntryCreates(t, Remediation)
    requires SomePending(s) == SomePending(t)
    ensures DispatchCreates(s, mem) == DispatchCreates(t, mem)
  {
    hide EntryCreates, SomePending;
    match mem
    case TriageCreateIntent =>
    case Triaging =>
    case RemediationTerminationPending =>
    case RemediationCreateIntent =>
    case RemediationReconcilingCreate =>
    case Remediating =>
    case _ =>
  }

  lemma SamePending(s: World, t: World)
    requires SameOutline(s, t) && SomePending(s)
    ensures SomePending(t)
  {
    var i :| 0 <= i < |s.attempts| && SessionProtocol.Pending(s.attempts[i]);
    assert SessionProtocol.Pending(t.attempts[i]);
  }

  lemma SameEntries(s: World, t: World, kind: Kind)
    requires SameOutline(s, t)
    ensures EntryCreates(t, kind) == EntryCreates(s, kind)
  {
    hide Admissible, NewestActive, NextOrdinal;
    NoneActive(s, t, kind);
    SameNumbering(s.attempts, t.attempts, kind);
    forall i | 0 <= i < |s.attempts| ensures Unsettled(s.attempts[i], kind) == Unsettled(t.attempts[i], kind) {}
  }

  lemma NoneActive(s: World, t: World, kind: Kind)
    requires SameOutline(s, t)
    ensures NewestActive(s.attempts, kind, |s.attempts|).None? == NewestActive(t.attempts, kind, |t.attempts|).None?
  {
    forall i | 0 <= i < |s.attempts| ensures ActiveOf(s.attempts[i], kind) == ActiveOf(t.attempts[i], kind) {}
  }

  lemma {:induction false} SameNumbering(a: seq<Attempt>, b: seq<Attempt>, kind: Kind)
    requires |a| == |b| && forall i | 0 <= i < |a| :: b[i].kind == a[i].kind && b[i].ordinal == a[i].ordinal
    ensures HighestOrdinal(a, kind) == HighestOrdinal(b, kind) && CountOf(a, kind) == CountOf(b, kind)
    ensures NextOrdinal(a, kind) == NextOrdinal(b, kind)
  {
    if a != [] { SameNumbering(a[..|a| - 1], b[..|b| - 1], kind); }
  }

  /** Nothing that happens around the processes of a dead case changes anything but the remote. */
  lemma AroundSealed(s: World, e: Event)
    requires Dead(s.state)
    requires e.RemoteStops? || e.RemoteVanishes? || e.OperatorCancel? || e.OperatorRetry? || e.ApprovalMove?
    ensures Effect(s, e) == s.(sessions := Effect(s, e).sessions)
  {
    hide MayOwn, UnackedRows, Rewrite, CapReached;
  }

  lemma SealedRemote(s: World, t: World)
    requires Sealed(s) && t == s.(sessions := t.sessions)
    ensures Sealed(t)
  {
    hide SentOwner;
    forall w <- t.processes ensures !TooLate(t, t.processes[w]) { SameLateness(s, t, s.processes[w]); }
  }

  /** A new process of a dead case has nothing to do. */
  lemma SealedArrival(s: World, t: World)
    requires Sealed(s) && t.state == s.state && t.attempts == s.attempts && t.config == s.config
    requires forall w <- t.processes ::
               (w in s.processes && t.processes[w] == s.processes[w]) ||
               (t.processes[w].pc.Dispatching? && t.processes[w].mem == s.state)
    ensures Sealed(t)
  {
    hide SentOwner, EntryCreates;
    forall w <- t.processes ensures !TooLate(t, t.processes[w]) {
      if w in s.processes && t.processes[w] == s.processes[w] { SameLateness(s, t, s.processes[w]); }
    }
  }

  lemma SealedOther(s: World, e: Event)
    requires Sealed(s) && (e.ClaimCase? || e.OperatorReconcile? || e.Crash?)
    ensures Sealed(Effect(s, e))
  {
    hide Sealed, Claimable;
    assert Dead(s.state) by { SealedState(s); }
    match e
    case ClaimCase(w) => SealedArrival(s, OnClaim(s, w));
    case OperatorReconcile(w) => assert OnOperatorReconcile(s, w) == s;
    case Crash(w) => SealedArrival(s, s.(processes := s.processes - {w}));
  }

  lemma SealedState(s: World)
    requires Sealed(s)
    ensures Dead(s.state)
  {}

  lemma ConfigStays(s: World, e: Event)
    ensures Effect(s, e).config == s.config
  {
    if CreatesNothing(e) {
      hide Effect;
      EffectIsQuiet(s, e);
    }
  }

  lemma NextIsSealed(s: World, e: Event)
    requires AllOk(s) && Sealed(s) && Serial(s, e)
    ensures Sealed(Next(s, e))
  {
    hide AllOk, Sealed, Serial, Next, Effect, Patient, Early, Inert, Assists;
    NextIs(s, e);
    SealedState(s);
    if Next(s, e) == s {
    } else if Actor(e).None? || e.ClaimCase? || e.OperatorReconcile? {
      if e.Crash? || e.ClaimCase? || e.OperatorReconcile? {
        SealedOther(s, e);
      } else {
        AroundSealed(s, e);
        SealedRemote(s, Effect(s, e));
      }
    } else {
      ActorSealed(s, e, Actor(e).value);
    }
  }

  lemma ActorSealed(s: World, e: Event, w: nat)
    requires AllOk(s) && Sealed(s) && Actor(e) == Some(w) && !e.ClaimCase? && !e.OperatorReconcile? && Effect(s, e) != s
    ensures Sealed(Effect(s, e))
  {
    hide AllOk, Sealed, Effect, Actor;
    if w !in s.processes { Absent(s, e, w); }
    else if Holder(s.processes[w]) { HolderSealed(s, e, w); }
    else { RequestSealed(s, e, w); }
  }

  lemma HolderSealed(s: World, e: Event, w: nat)
    requires AllOk(s) && Sealed(s) && Actor(e) == Some(w) && !e.ClaimCase? && !e.OperatorReconcile? && Effect(s, e) != s
    requires w in s.processes && Holder(s.processes[w])
    ensures Sealed(Effect(s, e))
  {
    hide AllOk, Sealed, Effect, Early, Inert, Actor, SealedAt;
    AtHolder(s, w);
    if Early(e) {
      NeitherInsertsNorPosts(e);
      SealedEarly(s, w, e);
    } else {
      SealedLate(s, w, e);
    }
    InertKeeps(s, Effect(s, e), w);
  }

  lemma NeitherInsertsNorPosts(e: Event)
    requires Early(e)
    ensures !e.Insert? && !e.SendPost?
  {}

  lemma RequestSealed(s: World, e: Event, w: nat)
    requires AllOk(s) && Sealed(s) && Actor(e) == Some(w) && !e.ClaimCase? && !e.OperatorReconcile? && Effect(s, e) != s
    requires w in s.processes && !Holder(s.processes[w])
    ensures Sealed(Effect(s, e))
  {
    hide AllOk, Sealed, Effect, Assists, Own, Actor;
    ConfigStays(s, e);
    if e.Insert? || e.SendPost? {
      RequestInsertsNothing(s, e, w);
    } else {
      OkOwns(s);
      EffectAssists(s, e, false);
      AssistsSealed(s, Effect(s, e), w);
    }
  }

  lemma OkOwns(s: World)
    requires AllOk(s)
    ensures Own(s, false)
  {
    hide Own;
  }

  lemma RequestInsertsNothing(s: World, e: Event, w: nat)
    requires AllOk(s) && w in s.processes && !Holder(s.processes[w]) && (e.Insert? || e.SendPost?) && Actor(e) == Some(w)
    ensures Effect(s, e) == s
  {
    hide Own, Inv, KeysOk;
    AtRequest(s, w, false);
  }

  lemma Absent(s: World, e: Event, w: nat)
    requires Actor(e) == Some(w) && !e.ClaimCase? && !e.OperatorReconcile? && w !in s.processes
    ensures Effect(s, e) == s
  {}

  lemma SerialPrefix(s: World, es: seq<Event>)
    requires SerialFrom(s, es) && es != []
    ensures SerialFrom(s, es[..|es| - 1]) && Serial(Run(s, es[..|es| - 1]), es[|es| - 1])
  {
    hide Serial, Run;
    var n := |es| - 1;
    forall m | 0 <= m < n ensures Serial(Run(s, es[..n][..m]), es[..n][m]) { assert es[..n][..m] == es[..m]; }
  }

  lemma {:induction false} RunIsSealed(s: World, es: seq<Event>)
    requires AllOk(s) && Sealed(s) && SerialFrom(s, es)
    ensures AllOk(Run(s, es)) && Sealed(Run(s, es))
  {
    if es != [] {
      hide AllOk, Sealed, Next, Serial, SerialFrom;
      var n := |es| - 1;
      SerialPrefix(s, es);
      RunIsSealed(s, es[..n]);
      NextIsOk(Run(s, es[..n]), es[n]);
      NextIsSealed(Run(s, es[..n]), es[n]);
    }
  }

  // ------------------------------------------------------------------ exactly when

  /** What a cancel that closes the case at once has seen. */
  lemma CancelSees(s: World)
    requires !L.Terminal(s.state) && L.Terminal(Next(s, OperatorCancel).state)
    ensures Next(s, OperatorCancel) == s.(state := Next(s, OperatorCancel).state) && Dead(Next(s, OperatorCancel).state)
    ensures forall i | 0 <= i < |s.attempts| :: !SentOwner(s.attempts[i])
    ensures forall w <- s.processes :: !HoldsCase(s.processes[w])
  {
    hide HoldsCase, L.Allowed;
    EffectOf(s, OperatorCancel);
    hide Effect;
  }

  /** An operator's cancel of a live case that closes it at once can be followed by a closed case with
      a sent and active attempt exactly if at that moment some process is about
      to create an attempt, or still polls one that is not active any more. */
  lemma CancelLeaksExactly(config: Config, es: seq<Event>)
    requires SerialRun(config, es, false)
    requires
      var s := Run(Initial(config), es);
      !L.Terminal(s.state) && L.Terminal(Next(s, OperatorCancel).state)
    ensures
      var s := Run(Initial(config), es);
      CanLeak(Next(s, OperatorCancel), SentAttempt) <==> exists w <- s.processes :: TooLate(s, s.processes[w])
  {
    hide Next, Inv, Own, KeysOk, HoldsCase, TooLate, SentOwner, Initial;
    var s := Run(Initial(config), es);
    var t := Next(s, OperatorCancel);
    assert es[..|es|] == es;
    RunOwns(config, es, |es|, false);
    RunKeepsKeys(config, es);
    CancelSees(s);
    assert AllOk(t) by { NextIsOk(s, OperatorCancel); }
    if w :| w in s.processes && TooLate(s, s.processes[w]) {
      assert Shut(t, w) && TooLate(t, t.processes[w]) by { LateIsHolder(s, s.processes[w]); SameLateness(s, t, s.processes[w]); }
      hide CanLeak, AllOk;
      TooLateLeaks(t, w);
    } else {
      NeverLeaks(s, t);
    }
  }

  lemma LateIsHolder(s: World, p: Process)
    requires TooLate(s, p)
    ensures Holder(p)
  {}

  lemma NeverLeaks(s: World, t: World)
    requires AllOk(t) && t == s.(state := t.state) && Dead(t.state)
    requires forall i | 0 <= i < |s.attempts| :: !SentOwner(s.attempts[i])
    requires forall w <- s.processes :: !TooLate(s, s.processes[w])
    ensures !CanLeak(t, SentAttempt)
  {
    hide AllOk, TooLate;
    forall w <- t.processes ensures !TooLate(t, t.processes[w]) { SameLateness(s, t, s.processes[w]); }
    assert Sealed(t);
    forall more | SerialFrom(t, more) ensures !Leaked(Run(t, more), SentAttempt) {
      RunIsSealed(t, more);
      NoSentOwner(Run(t, more));
    }
  }

  lemma NoSentOwner(s: World)
    requires Sealed(s)
    ensures !Leaked(s, SentAttempt)
  {
    hide TooLate;
    forall a <- s.attempts ensures !(Active(a) && a.sent) {
      var i :| 0 <= i < |s.attempts| && s.attempts[i] == a;
      assert !SentOwner(s.attempts[i]);
    }
  }
}
