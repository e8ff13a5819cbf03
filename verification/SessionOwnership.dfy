/** Runs with one holder of the claim at a time, and any number of operator requests beside it. At
    most one attempt of a kind owns a session; a blocked one is given up only with evidence; and a
    worker closes a cancelled case only when no session of an attempt that owned one works any more.

    `exact` says whether the search by tag is known to return every session that is not gone. */
module SessionOwnership {
  import opened Wrappers
  import opened Tags
  import opened SessionModel
  import opened SessionProtocol
  import opened SessionSafety
  import L = Lifecycle
  import S = Status

  // ------------------------------------------------------------------ the invariant

  /** A process that works under a claim; an operator's request has none. */
  predicate Holder(p: Process) { p.fence.Some? }

  ghost predicate OneHolder(s: World) {
    forall v, w | v in s.processes && w in s.processes && Holder(s.processes[v]) && Holder(s.processes[w]) :: v == w
  }

  ghost predicate SingleOwner(s: World) {
    forall i, j | 0 <= i < j < |s.attempts| && s.attempts[i].kind == s.attempts[j].kind ::
      !(Owning(s.attempts[i]) && Owning(s.attempts[j]))
  }

  /** What a row says about its session: a blocked row names it or is an unresolved create, and a
      named session exists and carries the row's key; and a row that is not active is finished. */
  predicate RowTrace(sessions: map<nat, Session>, a: Attempt) {
    && (Active(a) || a.finished)
    && (a.status == Blocked ==> a.session.Some? || a.createState == Unresolved)
    && (a.session.Some? ==> a.session.value in sessions && sessions[a.session.value].tag == a.key)
  }

  ghost predicate RowsTraced(s: World) { forall i | 0 <= i < |s.attempts| :: RowTrace(s.sessions, s.attempts[i]) }

  predicate Posted(posts: seq<Post>, tag: string) { exists p <- posts :: p.key == tag }

  /** No two sessions share a tag, and every session comes from a POST. */
  ghost predicate RemoteOk(s: World) {
    && (forall x, y | x in s.sessions && y in s.sessions && x != y :: s.sessions[x].tag != s.sessions[y].tag)
    && (forall x <- s.sessions :: Posted(s.posts, s.sessions[x].tag))
  }

  ghost predicate RemediationOk(s: World) {
    forall a <- s.attempts :: a.kind == Remediation ==> L.InRemediation(s.state)
  }

  /** No session that carries the key of row `i` is working. */
  ghost predicate RowQuiet(s: World, i: nat)
    requires i < |s.attempts|
  {
    forall x <- s.sessions :: s.sessions[x].tag == s.attempts[i].key ==> s.sessions[x].phase != Working
  }

  /** What lets `_settle_previous_sessions` give up a row: gone remotely, or acknowledged. */
  predicate GivenUp(s: World, a: Attempt) {
    || (a.session.Some? && IsGone(s.sessions, a.session.value))
    || (a.createState == Unresolved && a.reason == Acknowledged)
  }

  function KindOf(pc: Pc): Option<Kind> {
    match pc
    case Entered(k) => Some(k)
    case Settling(k, _, _, _) => Some(k)
    case SettleDelete(k, _, _, _) => Some(k)
    case Inserting(k, _) => Some(k)
    case _ => None
  }

  /** The row a process works on, from its insertion to its end. */
  function RowOf(pc: Pc): Option<nat> {
    match pc
    case Building(i) => Some(i)
    case Posting(i) => Some(i)
    case Attaching(i, _, _) => Some(i)
    case Refused(i) => Some(i)
    case OutcomeUnknown(i) => Some(i)
    case BeginReconcile(i) => Some(i)
    case Searching(i) => Some(i)
    case Unmatched(i) => Some(i)
    case Polling(i) => Some(i)
    case PollGet(i) => Some(i)
    case SessionLost(i) => Some(i)
    case Settled(i, _, _) => Some(i)
    case Finishing(i) => Some(i)
    case Handling(i) => Some(i)
    case Deleting(i) => Some(i)
    case DeleteFailed(i) => Some(i)
    case Sweeping(i) => Some(i)
    case Closing(i) => Some(i)
    case _ => None
  }

  /** Program points that hold a bound session. */
  predicate Bound(pc: Pc) {
    pc.Polling? || pc.PollGet? || pc.SessionLost? || pc.Settled? || pc.Finishing? || pc.Handling? ||
    pc.Deleting? || pc.DeleteFailed?
  }

  /** Program points before a session is bound. */
  predicate Unbound(pc: Pc) {
    pc.Building? || pc.Posting? || pc.Attaching? || pc.Refused? || pc.OutcomeUnknown? || pc.BeginReconcile? ||
    pc.Searching? || pc.Unmatched? || pc.Sweeping?
  }

  ghost predicate Alone(s: World, i: nat)
    requires i < |s.attempts|
  {
    forall j | 0 <= j < |s.attempts| && j != i && s.attempts[j].kind == s.attempts[i].kind :: !Owning(s.attempts[j])
  }

  /** The row a holder works on: no other of its kind owns a session, and it is not blocked. It may
      have been finished under the holder's hands, by an operator's request that ingested it. */
  ghost predicate Mine(s: World, i: nat)
    requires i < |s.attempts|
  {
    s.attempts[i].status != Blocked && Alone(s, i)
  }

  ghost predicate RowPcOk(s: World, p: Process, exact: bool) {
    RowOf(p.pc).Some? ==>
      var i := RowOf(p.pc).value;
      && i < |s.attempts|
      && Mine(s, i)
      && (Unbound(p.pc) ==> s.attempts[i].session.None? && Active(s.attempts[i]))
      && (Bound(p.pc) ==> s.attempts[i].session.Some?)
      && (p.pc.Finishing? ==> s.attempts[i].finished)
      && (p.pc.Attaching? ==> p.pc.sid in s.sessions && s.sessions[p.pc.sid].tag == s.attempts[i].key)
      && (p.pc.Closing? && exact ==> RowQuiet(s, i))
      && (p.mem == L.TerminationPending ==>
            && (p.pc.Settled? && p.pc.disposition == S.Finished ==> RowQuiet(s, i))
            && (p.pc.Settled? && p.pc.disposition == S.Failed ==> s.attempts[i].kind == Remediation)
            && (p.pc.Finishing? ==> RowQuiet(s, i)))
  }

  ghost predicate SettlingOk(s: World, kind: Kind, todo: seq<nat>, closed: set<nat>) {
    && (forall i | 0 <= i < |s.attempts| :: !ActiveOf(s.attempts[i], kind))
    && (forall i | 0 <= i < |s.attempts| && s.attempts[i].kind == kind && Owning(s.attempts[i]) :: i in todo || i in closed)
    && (forall i <- todo :: i < |s.attempts| && s.attempts[i].kind == kind)
    && (forall i <- closed :: i < |s.attempts| && s.attempts[i].kind == kind && GivenUp(s, s.attempts[i]))
  }

  ghost predicate TerminatingOk(s: World, todo: seq<nat>, closed: set<nat>, parked: set<nat>, exact: bool) {
    && (forall i | 0 <= i < |s.attempts| && Owning(s.attempts[i]) :: i in todo || i in closed || i in parked)
    && (forall i <- parked :: i < |s.attempts| && Owning(s.attempts[i]))
    && (forall i <- closed :: i < |s.attempts| && (exact ==> RowQuiet(s, i)))
    && (forall i <- todo :: i < |s.attempts| && Owning(s.attempts[i]))
  }

  /** The planned ordinal is still free. */
  ghost predicate PlanFresh(s: World, kind: Kind, ordinal: nat) {
    forall a <- s.attempts :: a.kind == kind ==> a.ordinal < ordinal
  }

  ghost predicate RereadingOk(s: World, candidates: seq<nat>, todo: seq<nat>, found: seq<(nat, bool)>) {
    && (forall i <- candidates :: i < |s.attempts| && Retained(s.attempts[i]))
    && (forall i <- todo :: i in candidates)
    && (forall e <- found :: e.0 in candidates)
  }

  ghost predicate PcOk(s: World, p: Process, exact: bool) {
    match p.pc
    case Entered(k) =>
      p.mem == L.TerminationPending ==> exists a <- s.attempts :: a.kind == k && a.status == TerminationPending
    case Settling(k, n, todo, closed) => SettlingOk(s, k, todo, closed) && PlanFresh(s, k, n)
    case SettleDelete(k, n, todo, closed) =>
      && SettlingOk(s, k, todo, closed) && PlanFresh(s, k, n)
      && todo != [] && todo[0] < |s.attempts| && s.attempts[todo[0]].session.Some?
    case Inserting(k, n) => (forall a <- s.attempts :: a.kind == k ==> !Owning(a)) && PlanFresh(s, k, n)
    case Terminating(todo, closed, parked) =>
      L.IsTerminationPending(p.mem) && TerminatingOk(s, todo, closed, parked, exact)
    case Rereading(candidates, todo, found) =>
      p.mem == L.HumanBlocked && (s.state == L.HumanBlocked ==> RereadingOk(s, candidates, todo, found))
    case _ => true
  }

  /** Program points a process can be at while it holds the case as TERMINATION_PENDING. */
  predicate TerminatingPc(pc: Pc) {
    pc.Dispatching? || pc.Entered? || pc.Sweeping? || pc.Handling? || pc.Deleting? || pc.DeleteFailed? ||
    pc.Closing? || (pc.Settled? && pc.disposition != S.Live && pc.disposition != S.Unknown) ||
    pc.Finishing? || pc.Terminating? || pc.Abandoning?
  }

  /** Only the holder blocks a case, and then it ends: whoever claims it later re-reads. */
  predicate AtBlockedCase(p: Process) {
    p.pc.Abandoning? || (p.mem == L.HumanBlocked && (p.pc.Dispatching? || p.pc.Rereading?))
  }

  ghost predicate ProcessOk(s: World, p: Process, exact: bool) {
    && (L.InRemediation(p.mem) ==> L.InRemediation(s.state))
    && (KindOf(p.pc) == Some(Remediation) ==> L.InRemediation(s.state))
    && (p.mem == L.TerminationPending ==> TerminatingPc(p.pc))
    && (p.mem == L.TerminationPending && !p.pc.Abandoning? ==> s.state == L.TerminationPending || s.state == L.Cancelled)
    && (s.state == L.HumanBlocked ==> AtBlockedCase(p))
    && RowPcOk(s, p, exact)
    && PcOk(s, p, exact)
  }

  predicate HolderAt(s: World, w: nat) { w in s.processes ==> Holder(s.processes[w]) }

  /** The attempt an operator's request has ingested. */
  predicate Ingested(s: World, p: Process, i: nat) {
    p.mem == L.Triaging && i < |s.attempts| && s.attempts[i].kind == Triage && s.attempts[i].session.Some?
  }

  /** An operator's request re-reads at most one session. Until it commits it holds the case, which
      therefore stays blocked, with the session still retained. */
  ghost predicate OperatorOk(s: World, p: Process) {
    match p.pc
    case Rereading(candidates, todo, found) =>
      && p.mem == L.HumanBlocked && |candidates| <= 1
      && (todo != [] || found != [] ==>
            s.state == L.HumanBlocked && |todo| + |found| == |candidates| && RereadingOk(s, candidates, todo, found))
    case Settled(i, d, _) => d == S.Finished && Ingested(s, p, i)
    case Finishing(i) => Ingested(s, p, i) && s.attempts[i].finished
    case _ => false
  }

  ghost predicate HoldersOk(s: World, exact: bool) {
    forall w <- s.processes :: Holder(s.processes[w]) ==> ProcessOk(s, s.processes[w], exact)
  }

  ghost predicate OperatorsOk(s: World) {
    forall w <- s.processes :: !Holder(s.processes[w]) ==> OperatorOk(s, s.processes[w])
  }

  /** While triage runs, no triage attempt is blocked. */
  ghost predicate TriagingOk(s: World) {
    s.state == L.Triaging ==> forall a <- s.attempts :: a.kind == Triage ==> a.status != Blocked
  }

  ghost predicate Own(s: World, exact: bool) {
    && OneHolder(s) && SingleOwner(s) && RowsTraced(s) && RemoteOk(s) && RemediationOk(s) && TriagingOk(s)
    && HoldersOk(s, exact) && OperatorsOk(s)
  }

  /** The claim is exclusive: nobody claims the case while another process works under a claim. */
  ghost predicate Serial(s: World, e: Event) {
    e.ClaimCase? ==> forall w <- s.processes :: !Holder(s.processes[w])
  }

  ghost predicate FindsAll(s: World, tag: string, sweep: SweepAnswer) {
    sweep.Swept? ==>
      forall x <- s.sessions :: s.sessions[x].tag == tag && s.sessions[x].phase != Gone ==> x in sweep.matches
  }

  ghost predicate ExactSearch(s: World, e: Event) {
    match e
    case SweepTag(w, sweep) =>
      w in s.processes && s.processes[w].pc.Sweeping? && s.processes[w].pc.attempt < |s.attempts| ==>
        FindsAll(s, s.attempts[s.processes[w].pc.attempt].key, sweep)
    case TerminateOne(w, _, sweep) =>
      w in s.processes && s.processes[w].pc.Terminating? && s.processes[w].pc.todo != [] &&
      s.processes[w].pc.todo[0] < |s.attempts| ==>
        FindsAll(s, s.attempts[s.processes[w].pc.todo[0]].key, sweep)
    case _ => true
  }

  predicate StaysInPhase(s: World, t: World) { L.InRemediation(s.state) ==> L.InRemediation(t.state) }

  // ------------------------------------------------------------------ the shape of a step

  /** A session keeps its tag and only moves forward. */
  predicate Aged(a: Session, b: Session) {
    a.tag == b.tag && (a.phase != Working ==> b.phase != Working) && (a.phase == Gone ==> b.phase == Gone)
  }

  predicate SessionsAge(s: map<nat, Session>, t: map<nat, Session>) {
    s.Keys == t.Keys && forall x <- s :: Aged(s[x], t[x])
  }

  predicate RowStep(a: Attempt, b: Attempt, free: bool) {
    && a.kind == b.kind && a.key == b.key
    && (a.session.Some? ==> b.session == a.session)
    && (a.finished ==> b.finished)
    && (!free && a.status == Blocked ==> b.status == Blocked)
  }

  /** No row is added, single ownership is kept, nothing is posted, and the remote only ages; and
      of the blocked rows only those in `released` may change their status. */
  ghost predicate Framed(s: World, t: World, released: set<nat>) {
    && |t.attempts| == |s.attempts|
    && (forall i | 0 <= i < |s.attempts| :: RowStep(s.attempts[i], t.attempts[i], i in released))
    && (SingleOwner(s) ==> SingleOwner(t))
    && RowsTraced(t)
    && SessionsAge(s.sessions, t.sessions)
    && t.posts == s.posts
    && StaysInPhase(s, t)
  }

  lemma FramedKeeps(s: World, t: World, released: set<nat>)
    requires SingleOwner(s) && RemoteOk(s) && RemediationOk(s) && Framed(s, t, released)
    ensures SingleOwner(t) && RowsTraced(t) && RemoteOk(t) && RemediationOk(t)
  {
    forall x, y | x in t.sessions && y in t.sessions && x != y
      ensures t.sessions[x].tag != t.sessions[y].tag
    {
      assert Aged(s.sessions[x], t.sessions[x]) && Aged(s.sessions[y], t.sessions[y]);
    }
    forall x <- t.sessions ensures Posted(t.posts, t.sessions[x].tag) {
      assert Aged(s.sessions[x], t.sessions[x]);
    }
    forall a <- t.attempts ensures a.kind == Remediation ==> L.InRemediation(t.state) {
      var i :| 0 <= i < |t.attempts| && t.attempts[i] == a;
      assert RowStep(s.attempts[i], t.attempts[i], i in released) && s.attempts[i] in s.attempts;
    }
  }

  /** The blocked rows that the next commit from `pc` may settle. */
  function Releasable(pc: Pc): set<nat> {
    match pc
    case Settling(_, _, _, closed) => closed
    case SettleDelete(_, _, _, closed) => closed
    case Terminating(todo, closed, parked) => if todo == [] then closed + parked else {}
    case Rereading(candidates, todo, _) => if todo == [] then set i <- candidates else {}
    case _ => {}
  }

  function Free(s: World, w: nat): set<nat>
    requires w in s.processes
  {
    Releasable(s.processes[w].pc)
  }

  /** Every row that owned a session is closed, and nothing that carries its key works. */
  ghost predicate Ended(s: World, t: World) {
    |t.attempts| == |s.attempts| &&
    forall i | 0 <= i < |s.attempts| && Owning(s.attempts[i]) :: !Owning(t.attempts[i]) && RowQuiet(s, i)
  }

  /** If the step closes a case whose termination was pending, its sessions have ended. */
  ghost predicate Closes(s: World, t: World, exact: bool) {
    exact && s.state == L.TerminationPending && L.Terminal(t.state) ==> Ended(s, t)
  }

  /** A step of process `w`, which then has ended, given up, or is where its successor may be. */
  ghost predicate Steps(s: World, t: World, w: nat, exact: bool) {
    && w in s.processes && Holder(s.processes[w])
    && Framed(s, t, Free(s, w))
    && Closes(s, t, exact)
    && (|| t.processes == s.processes - {w}
        || t.processes == s.processes[w := s.processes[w].(pc := Abandoning)]
        || (w in t.processes && t.processes == s.processes[w := t.processes[w]] && Holder(t.processes[w]) &&
            ProcessOk(t, t.processes[w], exact)))
  }

  lemma FramedIdle(s: World, released: set<nat>)
    requires RowsTraced(s)
    ensures Framed(s, s, released)
  {}

  lemma FramedRow(s: World, i: nat, b: Attempt, released: set<nat>)
    requires RowsTraced(s) && i < |s.attempts| && RowStep(s.attempts[i], b, i in released) && RowTrace(s.sessions, b)
    requires Owning(b) ==> Owning(s.attempts[i]) || Alone(s, i)
    ensures Framed(s, SetRow(s, i, b), released) && OnlyRows(s, SetRow(s, i, b))
  {}

  lemma FramedRewrite(s: World, which: set<nat>, f: Attempt -> Attempt, released: set<nat>)
    requires RowsTraced(s)
    requires forall i <- which | i < |s.attempts| ::
               && RowStep(s.attempts[i], f(s.attempts[i]), i in released) && RowTrace(s.sessions, f(s.attempts[i]))
               && (Owning(f(s.attempts[i])) ==> Owning(s.attempts[i]))
    ensures
      var t := s.(attempts := Rewrite(s.attempts, which, f));
      Framed(s, t, released) && OnlyRows(s, t)
  {}

  lemma FramedDelete(s: World, sids: set<nat>, released: set<nat>)
    requires RowsTraced(s)
    ensures Framed(s, s.(sessions := Delete(s.sessions, sids)), released)
  {}

  lemma FramedTrans(s: World, m: World, t: World, released: set<nat>)
    requires Framed(s, m, released) && Framed(m, t, released)
    ensures Framed(s, t, released)
  {
    hide RowTrace, Owning, L.InRemediation;
    forall x <- s.sessions ensures Aged(s.sessions[x], t.sessions[x]) {
      assert Aged(s.sessions[x], m.sessions[x]) && Aged(m.sessions[x], t.sessions[x]);
    }
    forall i | 0 <= i < |s.attempts| ensures RowStep(s.attempts[i], t.attempts[i], i in released) {
      assert RowStep(s.attempts[i], m.attempts[i], i in released) && RowStep(m.attempts[i], t.attempts[i], i in released);
    }
  }

  /** Only processes, state and claim differ. */
  predicate SameData(s: World, t: World) {
    t.attempts == s.attempts && t.sessions == s.sessions && t.posts == s.posts
  }

  lemma FramedSame(s: World, m: World, t: World, released: set<nat>)
    requires Framed(s, m, released) && SameData(m, t) && StaysInPhase(s, t)
    ensures Framed(s, t, released)
  {
    hide RowTrace, Aged, L.InRemediation;
  }

  lemma FramedParts(s: World, t: World, released: set<nat>)
    requires Framed(s, t, released)
    ensures RowsTraced(t) && StaysInPhase(s, t) && |t.attempts| == |s.attempts|
  {}

  lemma StopSteps(s: World, m: World, w: nat, exact: bool)
    requires HolderAt(s, w)
    requires w in s.processes && Framed(s, m, Free(s, w)) && m.processes == s.processes && m.state == s.state
    ensures Steps(s, Stop(m, w), w, exact)
  {
    hide ProcessOk, L.InRemediation, Framed;
    FramedParts(s, m, Free(s, w));
    FramedSame(s, m, Stop(m, w), Free(s, w));
  }

  lemma LostSteps(s: World, m: World, w: nat, exact: bool)
    requires HolderAt(s, w)
    requires w in s.processes && Framed(s, m, Free(s, w)) && m.processes == s.processes && m.state == s.state
    ensures Steps(s, Lost(m, w), w, exact)
  {
    hide ProcessOk, L.InRemediation, Framed;
    FramedParts(s, m, Free(s, w));
    FramedSame(s, m, Lost(m, w), Free(s, w));
  }

  lemma GotoSteps(s: World, m: World, w: nat, pc: Pc, exact: bool)
    requires HolderAt(s, w)
    requires w in s.processes && Framed(s, m, Free(s, w)) && m.processes == s.processes && m.state == s.state
    requires ProcessOk(Goto(m, w, pc), s.processes[w].(pc := pc), exact)
    ensures Steps(s, Goto(m, w, pc), w, exact)
  {
    hide ProcessOk, L.InRemediation, Framed;
    FramedParts(s, m, Free(s, w));
    FramedSame(s, m, Goto(m, w, pc), Free(s, w));
  }

  lemma MoveSteps(s: World, changed: World, w: nat, to: L.CaseState, exact: bool)
    requires HolderAt(s, w)
    requires w in s.processes && OnlyRows(s, changed) && RowsTraced(s) && Framed(s, changed, Free(s, w))
    requires StaysInPhase(s, MoveAndStop(s, changed, w, to))
    requires s.state == L.TerminationPending == s.processes[w].mem && L.Terminal(to) && exact ==> Ended(s, changed)
    ensures Steps(s, MoveAndStop(s, changed, w, to), w, exact)
  {
    hide ProcessOk, L.InRemediation, L.Allowed, Framed, RowQuiet;
    if CanMove(changed, w, to) {
      FramedSame(s, changed, MoveAndStop(s, changed, w, to), Free(s, w));
    } else {
      FramedIdle(s, Free(s, w));
      LostSteps(s, s, w, exact);
    }
  }

  lemma MoveOnSteps(s: World, changed: World, w: nat, to: L.CaseState, pc: Pc, exact: bool)
    requires HolderAt(s, w)
    requires w in s.processes && OnlyRows(s, changed) && RowsTraced(s) && Framed(s, changed, Free(s, w))
    requires StaysInPhase(s, MoveOn(s, changed, w, to, pc)) && !L.Terminal(to)
    requires CanMove(changed, w, to) ==>
               ProcessOk(Goto(Moved(changed, w, to), w, pc), Process(pc, to, s.processes[w].run, s.processes[w].fence), exact)
    ensures Steps(s, MoveOn(s, changed, w, to, pc), w, exact)
  {
    hide ProcessOk, L.InRemediation, Framed, CanMove;
    if CanMove(changed, w, to) {
      FramedSame(s, changed, MoveOn(s, changed, w, to, pc), Free(s, w));
    } else {
      FramedIdle(s, Free(s, w));
      LostSteps(s, s, w, exact);
    }
  }

  lemma FailSteps(s: World, changed: World, w: nat, exact: bool)
    requires HolderAt(s, w)
    requires w in s.processes && OnlyRows(s, changed) && RowsTraced(s) && Framed(s, changed, Free(s, w))
    requires StaysInPhase(s, FailJob(s, changed, w))
    requires s.state == L.TerminationPending == s.processes[w].mem && exact ==> Ended(s, changed)
    ensures Steps(s, FailJob(s, changed, w), w, exact)
  {
    hide ProcessOk, L.InRemediation, L.Allowed, Framed, FailJob;
    var t := FailJob(s, changed, w);
    FramedIdle(s, Free(s, w));
    FramedParts(s, changed, Free(s, w));
    FramedRewrite(changed, LiveRows(changed.attempts), FailureParked, Free(s, w));
    var parked := changed.(attempts := Rewrite(changed.attempts, LiveRows(changed.attempts), FailureParked));
    FramedTrans(s, changed, parked, Free(s, w));
    if t.attempts == s.attempts { FramedSame(s, s, t, Free(s, w)); }
    else if t.attempts == changed.attempts { FramedSame(s, changed, t, Free(s, w)); }
    else { FramedSame(s, parked, t, Free(s, w)); }
  }

  // ------------------------------------------------------------------ one lemma per worker step

  lemma QuietSame(s: World, t: World, i: nat)
    requires i < |s.attempts| && |t.attempts| == |s.attempts| && t.attempts[i].key == s.attempts[i].key
    requires t.sessions == s.sessions
    ensures RowQuiet(s, i) == RowQuiet(t, i)
  {}

  lemma QuietBySession(s: World, i: nat)
    requires RemoteOk(s) && i < |s.attempts| && RowTrace(s.sessions, s.attempts[i])
    requires s.attempts[i].session.Some? && Quiet(s.sessions, s.attempts[i].session.value)
    ensures RowQuiet(s, i)
  {}

  lemma SettlingAges(s: World, t: World, kind: Kind, todo: seq<nat>, closed: set<nat>)
    requires SettlingOk(s, kind, todo, closed) && t.attempts == s.attempts && SessionsAge(s.sessions, t.sessions)
    ensures SettlingOk(t, kind, todo, closed)
  {
    forall i <- closed ensures GivenUp(t, t.attempts[i]) {
      assert GivenUp(s, s.attempts[i]);
      assert s.attempts[i].session.Some? && s.attempts[i].session.value in s.sessions ==>
        Aged(s.sessions[s.attempts[i].session.value], t.sessions[s.attempts[i].session.value]);
    }
  }

  lemma SettlingSame(s: World, t: World, kind: Kind, todo: seq<nat>, closed: set<nat>)
    requires SettlingOk(s, kind, todo, closed) && SameData(s, t)
    ensures SettlingOk(t, kind, todo, closed)
  {}

  lemma TerminatingSame(s: World, t: World, todo: seq<nat>, closed: set<nat>, parked: set<nat>, exact: bool)
    requires TerminatingOk(s, todo, closed, parked, exact) && SameData(s, t)
    ensures TerminatingOk(t, todo, closed, parked, exact)
  {}

  lemma DeleteAges(s: World, sids: set<nat>)
    ensures SessionsAge(s.sessions, s.sessions) && SessionsAge(s.sessions, Delete(s.sessions, sids))
  {}

  /** What is known of the attempt at the head of the list. */
  lemma SettledRow(s: World, kind: Kind, todo: seq<nat>, closed: set<nat>)
    requires SettlingOk(s, kind, todo, closed) && RowsTraced(s) && todo != [] && todo[0] < |s.attempts|
    ensures
      var a := s.attempts[todo[0]];
      && (a.session.None? && a.createState != Unresolved ==> !Owning(a) && !GivenUp(s, a))
      && (a.createState == Unresolved && a.reason == Acknowledged ==> GivenUp(s, a))
  {
    assert todo[0] in todo;
    assert RowTrace(s.sessions, s.attempts[todo[0]]);
  }

  /** One attempt of the list is done with: given up, or never an owner. */
  lemma SettlingNext(s: World, kind: Kind, todo: seq<nat>, closed: set<nat>, done: set<nat>)
    requires SettlingOk(s, kind, todo, closed) && todo != [] && todo[0] < |s.attempts|
    requires if GivenUp(s, s.attempts[todo[0]]) then done == closed + {todo[0]}
             else done == closed && !Owning(s.attempts[todo[0]])
    ensures SettlingOk(s, kind, todo[1..], done)
  {
    hide GivenUp, Active, Owning;
    assert todo == [todo[0]] + todo[1..];
    forall i | 0 <= i < |s.attempts| && s.attempts[i].kind == kind && Owning(s.attempts[i]) ensures i in todo[1..] || i in done {
      assert i in todo || i in closed;
      if i == todo[0] { assert i in done; }
    }
    forall i <- todo[1..] ensures i < |s.attempts| && s.attempts[i].kind == kind { assert i in todo; }
  }

  lemma TerminatingAges(s: World, t: World, todo: seq<nat>, closed: set<nat>, parked: set<nat>, exact: bool)
    requires TerminatingOk(s, todo, closed, parked, exact)
    requires t.attempts == s.attempts && SessionsAge(s.sessions, t.sessions)
    ensures TerminatingOk(t, todo, closed, parked, exact)
  {
    hide Owning;
    forall i <- closed | exact ensures RowQuiet(t, i) {
      assert RowQuiet(s, i);
      forall x <- t.sessions ensures t.sessions[x].tag == t.attempts[i].key ==> t.sessions[x].phase != Working {
        assert Aged(s.sessions[x], t.sessions[x]);
      }
    }
  }

  lemma TerminatingNext(s: World, todo: seq<nat>, closed: set<nat>, parked: set<nat>, ended: bool, exact: bool)
    requires TerminatingOk(s, todo, closed, parked, exact) && todo != [] && todo[0] < |s.attempts|
    requires ended && exact ==> RowQuiet(s, todo[0])
    ensures TerminatingOk(s, todo[1..], if ended then closed + {todo[0]} else closed,
                          if ended then parked else parked + {todo[0]}, exact)
  {
    hide Owning, RowQuiet;
    assert todo == [todo[0]] + todo[1..];
  }

  /** `_finish_triage` ends triage with two transitions in one commit. */
  lemma DoubleMoveSteps(s: World, changed: World, w: nat, exact: bool)
    requires HolderAt(s, w)
    requires w in s.processes && OnlyRows(s, changed) && Framed(s, changed, Free(s, w))
    requires CanMove(changed, w, L.Triaged)
    ensures Steps(s, Stop(Moved(Moved(changed, w, L.Triaged), w, L.AwaitingRemediationApproval), w), w, exact)
  {
    hide ProcessOk, Framed;
    var t := Stop(Moved(Moved(changed, w, L.Triaged), w, L.AwaitingRemediationApproval), w);
    assert !L.InRemediation(s.state) by { if L.InRemediation(s.state) { L.RemediationIsClosed(s.state, L.Triaged, false); } }
    FramedSame(s, changed, t, Free(s, w));
  }

  lemma SoleIndex(s: World, i: nat, j: nat)
    requires SingleOwner(s) && i < |s.attempts| && j < |s.attempts| && s.attempts[i].kind == s.attempts[j].kind
    requires Owning(s.attempts[i]) && Owning(s.attempts[j])
    ensures i == j
  {}

  /** While termination is pending, the row at hand is the only one that owns a session. */
  lemma SoleEnded(s: World, i: nat, b: Attempt)
    requires RemediationOk(s) && s.state == L.TerminationPending
    requires i < |s.attempts| && Alone(s, i) && !Owning(b) && RowQuiet(s, i)
    ensures Ended(s, SetRow(s, i, b))
  {
    forall j | 0 <= j < |s.attempts| && Owning(s.attempts[j]) ensures j == i {
      assert s.attempts[i] in s.attempts && s.attempts[j] in s.attempts;
    }
  }

  lemma QuietAfterDelete(s: World, t: World, i: nat)
    requires RemoteOk(s) && i < |s.attempts| && RowTrace(s.sessions, s.attempts[i]) && s.attempts[i].session.Some?
    requires t.attempts == s.attempts
    requires t.sessions == Delete(s.sessions, {s.attempts[i].session.value}) ||
             (t.sessions == s.sessions && IsGone(s.sessions, s.attempts[i].session.value))
    ensures RowQuiet(t, i)
  {}

  lemma QuietAfterSweep(s: World, i: nat, sweep: SweepAnswer)
    requires i < |s.attempts| && sweep.Swept? && FindsAll(s, s.attempts[i].key, sweep)
    ensures RowQuiet(AfterSweep(s, sweep), i)
  {}

  lemma PostIsFirst(s: World, i: nat)
    requires Inv(s) && RemoteOk(s) && i < |s.attempts|
    requires forall k | 0 <= k < |s.posts| :: s.posts[k].attempt != i
    ensures forall x <- s.sessions :: s.sessions[x].tag != s.attempts[i].key
  {
    forall x <- s.sessions ensures s.sessions[x].tag != s.attempts[i].key {
      var p :| p in s.posts && p.key == s.sessions[x].tag;
      var k :| 0 <= k < |s.posts| && s.posts[k] == p;
      assert PostOk(s, p);
      if p.attempt < i { assert s.attempts[p.attempt].key != s.attempts[i].key; }
      else if i < p.attempt { assert s.attempts[i].key != s.attempts[p.attempt].key; }
    }
  }

  /** A row never marked as sent was never posted, so no session carries its key. */
  lemma UnsentIsQuiet(s: World, i: nat)
    requires Inv(s) && RemoteOk(s) && i < |s.attempts| && !s.attempts[i].sent
    ensures RowQuiet(s, i)
  {
    forall k | 0 <= k < |s.posts| ensures s.posts[k].attempt != i {
      assert PostOk(s, s.posts[k]);
    }
    PostIsFirst(s, i);
  }

  /** What a holder may rely on. */
  lemma AtProcess(s: World, w: nat, exact: bool)
    requires HolderAt(s, w) && Own(s, exact) && w in s.processes
    ensures ProcessOk(s, s.processes[w], exact)
    ensures RowsTraced(s) && SingleOwner(s) && RemoteOk(s) && RemediationOk(s)
  {
    hide ProcessOk, RowsTraced, SingleOwner, RemoteOk, RemediationOk;
  }

  lemma StepEvaluate(s: World, w: nat, exact: bool)
    requires HolderAt(s, w)
    requires Own(s, exact) && StaysInPhase(s, OnEvaluate(s, w))
    ensures OnEvaluate(s, w) == s || Steps(s, OnEvaluate(s, w), w, exact)
  {
    hide Own, Framed, Steps, OneHolder, SingleOwner, RemoteOk, RemediationOk, L.Allowed,
      Stop, Lost, MoveOn, MoveAndStop, FailJob, CanMove, FailureParked;
    if OnEvaluate(s, w) != s {
      var p := s.processes[w];
      AtProcess(s, w, exact);
      FramedIdle(s, Free(s, w));
      MoveOnSteps(s, s, w, L.EligibilityEvaluated, Evaluated, exact);
    }
  }

  lemma StepAdmit(s: World, w: nat, eligible: bool, exact: bool)
    requires HolderAt(s, w)
    requires Own(s, exact) && StaysInPhase(s, OnAdmit(s, w, eligible))
    ensures OnAdmit(s, w, eligible) == s || Steps(s, OnAdmit(s, w, eligible), w, exact)
  {
    hide Own, Framed, Steps, OneHolder, SingleOwner, RemoteOk, RemediationOk, L.Allowed,
      Stop, Lost, MoveOn, MoveAndStop, FailJob, CanMove, FailureParked;
    if OnAdmit(s, w, eligible) != s {
      var p := s.processes[w];
      AtProcess(s, w, exact);
      FramedIdle(s, Free(s, w));
      if eligible {
        MoveOnSteps(s, s, w, L.TriageCreateIntent, Entered(Triage), exact);
      } else {
        MoveSteps(s, s, w, L.PolicyRejected, exact);
      }
    }
  }

  lemma StepPipelineFail(s: World, w: nat, exact: bool)
    requires HolderAt(s, w)
    requires Own(s, exact) && StaysInPhase(s, OnPipelineFail(s, w))
    ensures OnPipelineFail(s, w) == s || Steps(s, OnPipelineFail(s, w), w, exact)
  {
    hide Own, Framed, Steps, OneHolder, SingleOwner, RemoteOk, RemediationOk, L.Allowed,
      Stop, Lost, MoveOn, MoveAndStop, FailJob, CanMove, FailureParked;
    if OnPipelineFail(s, w) != s {
      var p := s.processes[w];
      AtProcess(s, w, exact);
      FramedIdle(s, Free(s, w));
      FailSteps(s, s, w, exact);
    }
  }

  lemma CancelFramed(s: World, closed: set<nat>)
    requires RowsTraced(s)
    ensures Framed(s, CancelledRows(s, closed), closed) && OnlyRows(s, CancelledRows(s, closed))
  {
    FramedRewrite(s, closed, CancelledRow, closed);
  }

  /** On to another point of the settling loop. */
  lemma SettleGoto(s: World, m: World, w: nat, pc: Pc, exact: bool)
    requires HolderAt(s, w)
    requires Own(s, exact) && w in s.processes && (s.processes[w].pc.Settling? || s.processes[w].pc.SettleDelete?)
    requires m == s.(sessions := m.sessions) && (m == s || Framed(s, m, Free(s, w)))
    requires pc.Settling? || (pc.SettleDelete? && pc.todo != [] && pc.todo[0] < |s.attempts| && s.attempts[pc.todo[0]].session.Some?)
    requires pc.kind == s.processes[w].pc.kind && pc.ordinal == s.processes[w].pc.ordinal
    requires SettlingOk(m, pc.kind, pc.todo, pc.closed)
    ensures Steps(s, Goto(m, w, pc), w, exact)
  {
    hide Own, Framed, Steps, OneHolder, SingleOwner, RemoteOk, RemediationOk, L.InRemediation, SettlingOk;
    AtProcess(s, w, exact);
    FramedIdle(s, Free(s, w));
    SettlingSame(m, Goto(m, w, pc), pc.kind, pc.todo, pc.closed);
    GotoSteps(s, m, w, pc, exact);
  }

  lemma StepSettleStep(s: World, w: nat, got: GetAnswer, exact: bool)
    requires HolderAt(s, w)
    requires Own(s, exact) && StaysInPhase(s, OnSettleStep(s, w, got))
    ensures OnSettleStep(s, w, got) == s || Steps(s, OnSettleStep(s, w, got), w, exact)
  {
    hide Own, SettlingOk, RowTrace, Owning, Framed, Steps, OneHolder, SingleOwner, RemoteOk, RemediationOk, L.Allowed, L.InRemediation,
      Stop, Lost, MoveOn, MoveAndStop, FailJob, CanMove, FailureParked;
    if OnSettleStep(s, w, got) != s {
      var p := s.processes[w];
      AtProcess(s, w, exact);
      var Settling(kind, ordinal, todo, closed) := p.pc;
      var i, rest := todo[0], todo[1..];
      var a := s.attempts[i];
      SettledRow(s, kind, todo, closed);
      if OnSettleStep(s, w, got) == FailJob(s, CancelledRows(s, closed), w) {
        CancelFramed(s, closed);
        FailSteps(s, CancelledRows(s, closed), w, exact);
      } else if a.createState == Unresolved || (a.session.Some? && got.GetNotFound?) {
        SettlingNext(s, kind, todo, closed, closed + {i});
        SettleGoto(s, s, w, Settling(kind, ordinal, rest, closed + {i}), exact);
      } else if a.session.None? {
        SettlingNext(s, kind, todo, closed, closed);
        SettleGoto(s, s, w, Settling(kind, ordinal, rest, closed), exact);
      } else {
        SettleGoto(s, s, w, SettleDelete(kind, ordinal, todo, closed), exact);
      }
    }
  }

  lemma StepSettleDeleted(s: World, w: nat, answer: DeleteAnswer, exact: bool)
    requires HolderAt(s, w)
    requires Own(s, exact) && StaysInPhase(s, OnSettleDeleted(s, w, answer))
    ensures OnSettleDeleted(s, w, answer) == s || Steps(s, OnSettleDeleted(s, w, answer), w, exact)
  {
    hide Own, SettlingOk, Framed, Steps, OneHolder, SingleOwner, RemoteOk, RemediationOk, L.Allowed, L.InRemediation,
      Stop, Lost, MoveOn, MoveAndStop, FailJob, CanMove, FailureParked, RowPcOk, RowTrace, PlanFresh;
    if OnSettleDeleted(s, w, answer) != s {
      var p := s.processes[w];
      AtProcess(s, w, exact);
      var SettleDelete(kind, ordinal, todo, closed) := p.pc;
      var i := todo[0];
      var sid := s.attempts[i].session.value;
      if answer.DeleteError? {
        CancelFramed(s, closed);
        FailSteps(s, CancelledRows(s, closed), w, exact);
      } else {
        FramedDelete(s, {sid}, Free(s, w));
        var t := AfterDelete(s, sid, answer);
        DeleteAges(s, {sid});
        SettlingAges(s, t, kind, todo, closed);
        SettlingNext(t, kind, todo, closed, closed + {i});
        SettleGoto(s, t, w, Settling(kind, ordinal, todo[1..], closed + {i}), exact);
      }
    }
  }

  lemma SettledToInserting(s: World, w: nat, exact: bool)
    requires HolderAt(s, w)
    requires Own(s, exact) && w in s.processes && s.processes[w].pc.Settling? && s.processes[w].pc.todo == []
    ensures
      var pc := s.processes[w].pc;
      var t := Goto(CancelledRows(s, pc.closed), w, Inserting(pc.kind, pc.ordinal));
      ProcessOk(t, s.processes[w].(pc := Inserting(pc.kind, pc.ordinal)), exact)
  {
    hide Own, L.InRemediation, RowTrace, GivenUp;
    AtProcess(s, w, exact);
  }

  lemma StepSettleCommit(s: World, w: nat, exact: bool)
    requires HolderAt(s, w)
    requires Own(s, exact) && StaysInPhase(s, OnSettleCommit(s, w))
    ensures OnSettleCommit(s, w) == s || Steps(s, OnSettleCommit(s, w), w, exact)
  {
    hide Framed, Steps, ProcessOk, RowsTraced;
    if OnSettleCommit(s, w) != s {
      var pc := s.processes[w].pc;
      CancelFramed(s, pc.closed);
      SettledToInserting(s, w, exact);
      GotoSteps(s, CancelledRows(s, pc.closed), w, Inserting(pc.kind, pc.ordinal), exact);
    }
  }

  lemma StepDeleteOrphan(s: World, w: nat, answer: DeleteAnswer, exact: bool)
    requires HolderAt(s, w)
    requires Own(s, exact) && StaysInPhase(s, OnDeleteOrphan(s, w, answer))
    ensures OnDeleteOrphan(s, w, answer) == s || Steps(s, OnDeleteOrphan(s, w, answer), w, exact)
  {
    hide Own, Framed, Steps, OneHolder, SingleOwner, RemoteOk, RemediationOk, L.Allowed, L.InRemediation,
      Stop, Lost, MoveOn, MoveAndStop, FailJob, CanMove, FailureParked;
    if OnDeleteOrphan(s, w, answer) != s {
      var p := s.processes[w];
      AtProcess(s, w, exact);
      FramedIdle(s, Free(s, w));
      FramedDelete(s, {p.pc.sid}, Free(s, w));
      LostSteps(s, AfterDelete(s, p.pc.sid, answer), w, exact);
    }
  }

  lemma AtRow(s: World, w: nat, exact: bool)
    requires HolderAt(s, w)
    requires Own(s, exact) && w in s.processes && RowOf(s.processes[w].pc).Some?
    ensures RowPcOk(s, s.processes[w], exact)
    ensures s.processes[w].mem == L.TerminationPending ==> TerminatingPc(s.processes[w].pc)
    ensures RowTrace(s.sessions, s.attempts[RowOf(s.processes[w].pc).value]) && RowsTraced(s) && RemoteOk(s)
    ensures Framed(s, s, {})
  {
    hide Own;
    AtProcess(s, w, exact);
    FramedIdle(s, Free(s, w));
  }

  /** On to another point with the same row. */
  lemma RowGoto(s: World, m: World, w: nat, pc: Pc, exact: bool)
    requires HolderAt(s, w)
    requires Own(s, exact) && w in s.processes && RowOf(s.processes[w].pc).Some? && RowOf(pc).Some?
    requires m == s.(attempts := m.attempts, sessions := m.sessions) && Framed(s, m, Free(s, w))
    requires RowPcOk(m, s.processes[w].(pc := pc), exact)
    requires s.processes[w].mem == L.TerminationPending ==> TerminatingPc(pc)
    ensures Steps(s, Goto(m, w, pc), w, exact)
  {
    hide Own, Framed, Steps, OneHolder, SingleOwner, RemoteOk, RemediationOk, L.InRemediation;
    AtProcess(s, w, exact);
    GotoSteps(s, m, w, pc, exact);
  }

  /** Program points at which nothing more is known of the row than that it is active. */
  predicate Plain(pc: Pc) { RowOf(pc).Some? && !pc.Attaching? && !pc.Closing? && !pc.Finishing? && !pc.Settled? }

  /** `b` is what the row that `w` works on may become. */
  ghost predicate Fits(s: World, w: nat, b: Attempt) {
    && w in s.processes && RowOf(s.processes[w].pc).Some?
    && var i := RowOf(s.processes[w].pc).value;
       i < |s.attempts| && RowStep(s.attempts[i], b, false) && RowTrace(s.sessions, b)
  }

  function RowNow(s: World, w: nat): nat
    requires w in s.processes && RowOf(s.processes[w].pc).Some?
  {
    RowOf(s.processes[w].pc).value
  }

  predicate Holds(pc: Pc, i: nat, b: Attempt) {
    && Plain(pc) && RowOf(pc) == Some(i) && b.status != Blocked
    && (Bound(pc) ==> b.session.Some?) && (Unbound(pc) ==> b.session.None? && Active(b))
  }

  lemma FitsFrames(s: World, w: nat, b: Attempt, exact: bool)
    requires HolderAt(s, w)
    requires Own(s, exact) && Fits(s, w, b)
    ensures
      var t := SetRow(s, RowNow(s, w), b);
      Framed(s, t, Free(s, w)) && OnlyRows(s, t) && RowsTraced(s) && RemediationOk(s) && SingleOwner(s)
    ensures b.status != Blocked ==> Mine(SetRow(s, RowNow(s, w), b), RowNow(s, w))
  {
    hide Own, Framed, RowTrace, SingleOwner, RemediationOk, RemoteOk, RowsTraced, RowQuiet;
    AtProcess(s, w, exact);
    FramedRow(s, RowNow(s, w), b, Free(s, w));
    if b.status != Blocked { MineStays(s, RowNow(s, w), b); }
  }

  lemma MineStays(s: World, i: nat, b: Attempt)
    requires i < |s.attempts| && Mine(s, i) && b.kind == s.attempts[i].kind && b.status != Blocked
    ensures Mine(SetRow(s, i, b), i)
  {}

  /** The row is rewritten and the process goes on with it. */
  lemma RowTo(s: World, w: nat, b: Attempt, pc: Pc, exact: bool)
    requires HolderAt(s, w)
    requires Own(s, exact) && Fits(s, w, b) && Holds(pc, RowNow(s, w), b)
    requires s.processes[w].mem == L.TerminationPending ==> TerminatingPc(pc)
    ensures Steps(s, Goto(SetRow(s, RowNow(s, w), b), w, pc), w, exact)
  {
    hide Own, Framed, Steps, RowTrace, RowQuiet, Mine;
    FitsFrames(s, w, b, exact);
    RowGoto(s, SetRow(s, RowNow(s, w), b), w, pc, exact);
  }

  /** The row is rewritten together with a move of the case, and the process goes on. */
  lemma RowMoveOn(s: World, w: nat, b: Attempt, to: L.CaseState, pc: Pc, exact: bool)
    requires HolderAt(s, w)
    requires Own(s, exact) && Fits(s, w, b) && Holds(pc, RowNow(s, w), b)
    requires !L.Terminal(to) && to != L.TerminationPending && to != L.HumanBlocked
    requires StaysInPhase(s, MoveOn(s, SetRow(s, RowNow(s, w), b), w, to, pc))
    ensures Steps(s, MoveOn(s, SetRow(s, RowNow(s, w), b), w, to, pc), w, exact)
  {
    hide Own, Framed, Steps, RowTrace, RowQuiet, L.InRemediation, MoveOn, CanMove, Mine, RowsTraced;
    FitsFrames(s, w, b, exact);
    RowMoved(s, w, b, to, pc, exact);
    MoveOnSteps(s, SetRow(s, RowNow(s, w), b), w, to, pc, exact);
  }

  lemma RowMoved(s: World, w: nat, b: Attempt, to: L.CaseState, pc: Pc, exact: bool)
    requires w in s.processes && RowOf(s.processes[w].pc).Some? && RowNow(s, w) < |s.attempts|
    requires Mine(SetRow(s, RowNow(s, w), b), RowNow(s, w)) && Holds(pc, RowNow(s, w), b)
    requires !L.Terminal(to) && to != L.TerminationPending && to != L.HumanBlocked
    ensures ProcessOk(Goto(Moved(SetRow(s, RowNow(s, w), b), w, to), w, pc),
                      Process(pc, to, s.processes[w].run, s.processes[w].fence), exact)
  {
    hide RowQuiet, L.InRemediation;
    var m := SetRow(s, RowNow(s, w), b);
    MineSame(m, Goto(Moved(m, w, to), w, pc), RowNow(s, w));
  }

  lemma MineSame(s: World, t: World, i: nat)
    requires i < |s.attempts| && Mine(s, i) && t.attempts == s.attempts
    ensures Mine(t, i)
  {}

  /** The row is rewritten together with the failure of the case. */
  lemma RowFails(s: World, w: nat, b: Attempt, exact: bool)
    requires HolderAt(s, w)
    requires Own(s, exact) && Fits(s, w, b) && StaysInPhase(s, FailJob(s, SetRow(s, RowNow(s, w), b), w))
    requires s.state == L.TerminationPending == s.processes[w].mem && exact ==> Ended(s, SetRow(s, RowNow(s, w), b))
    ensures Steps(s, FailJob(s, SetRow(s, RowNow(s, w), b), w), w, exact)
  {
    hide Own, Framed, Steps, RowTrace, RowQuiet, Ended, FailJob, SetRow;
    FitsFrames(s, w, b, exact);
    FailSteps(s, SetRow(s, RowNow(s, w), b), w, exact);
  }

  /** The row is rewritten together with a move of the case, and the job ends. */
  lemma RowEnds(s: World, w: nat, b: Attempt, to: L.CaseState, exact: bool)
    requires HolderAt(s, w)
    requires Own(s, exact) && Fits(s, w, b) && StaysInPhase(s, MoveAndStop(s, SetRow(s, RowNow(s, w), b), w, to))
    requires s.state == L.TerminationPending == s.processes[w].mem && L.Terminal(to) && exact ==>
               Ended(s, SetRow(s, RowNow(s, w), b))
    ensures Steps(s, MoveAndStop(s, SetRow(s, RowNow(s, w), b), w, to), w, exact)
  {
    hide Own, Framed, Steps, RowTrace, RowQuiet, Ended, MoveAndStop, SetRow;
    FitsFrames(s, w, b, exact);
    MoveSteps(s, SetRow(s, RowNow(s, w), b), w, to, exact);
  }

  /** While the case waits for its termination, ending the row at hand ends everything. */
  lemma RowIsLast(s: World, w: nat, b: Attempt, exact: bool)
    requires HolderAt(s, w)
    requires Own(s, exact) && Fits(s, w, b) && s.state == L.TerminationPending && !Owning(b)
    requires RowQuiet(s, RowNow(s, w))
    ensures Ended(s, SetRow(s, RowNow(s, w), b))
  {
    hide Own, Framed, RowTrace, RowQuiet, Ended;
    AtProcess(s, w, exact);
    SoleEnded(s, RowNow(s, w), b);
  }

  lemma RowOutsidePhase(s: World, i: nat)
    requires RemediationOk(s) && i < |s.attempts|
    ensures s.attempts[i].kind == Remediation ==> s.state != L.TerminationPending
  {
    assert s.attempts[i] in s.attempts;
  }

  lemma StepBuild(s: World, w: nat, ok: bool, exact: bool)
    requires HolderAt(s, w)
    requires Own(s, exact) && StaysInPhase(s, OnBuild(s, w, ok))
    ensures OnBuild(s, w, ok) == s || Steps(s, OnBuild(s, w, ok), w, exact)
  {
    hide Own, Steps, Framed, RemoteOk, RowsTraced, L.InRemediation, L.Allowed, RowQuiet, MoveOn, MoveAndStop, FailJob, CanMove,
      StaysInPhase, Ended, Goto, SetRow, Stop, Lost;
    if OnBuild(s, w, ok) != s {
      AtRow(s, w, exact);
      var i := s.processes[w].pc.attempt;
      var a := s.attempts[i];
      if ok {
        RowTo(s, w, a.(sent := true), Posting(i), exact);
      } else {
        RowFails(s, w, a.(createState := NotSent, status := Failed, finished := true), exact);
      }
    }
  }

  lemma AttachOrphans(s: World, w: nat, exact: bool)
    requires HolderAt(s, w)
    requires Own(s, exact) && w in s.processes && s.processes[w].pc.Attaching?
    requires Fits(s, w, Closed(s.attempts[s.processes[w].pc.attempt]
                               .(createState := s.processes[w].pc.createState, session := Some(s.processes[w].pc.sid)), Cancelled))
    ensures
      var Attaching(i, sid, created) := s.processes[w].pc;
      var b := Closed(s.attempts[i].(createState := created, session := Some(sid)), Cancelled);
      Steps(s, Goto(SetRow(s, i, b), w, Orphaned(sid)), w, exact)
  {
    hide Own, Framed, Steps, RowTrace, RowQuiet, L.InRemediation, SingleOwner, RemoteOk, RemediationOk, RowsTraced;
    var Attaching(i, sid, created) := s.processes[w].pc;
    var b := Closed(s.attempts[i].(createState := created, session := Some(sid)), Cancelled);
    AtProcess(s, w, exact);
    FitsFrames(s, w, b, exact);
    GotoSteps(s, SetRow(s, i, b), w, Orphaned(sid), exact);
  }

  lemma StepAttach(s: World, w: nat, exact: bool)
    requires HolderAt(s, w)
    requires Own(s, exact) && StaysInPhase(s, OnAttach(s, w))
    ensures OnAttach(s, w) == s || Steps(s, OnAttach(s, w), w, exact)
  {
    hide Own, Steps, Framed, RemoteOk, RowsTraced, L.InRemediation, L.Allowed, RowQuiet, MoveOn, MoveAndStop, FailJob, CanMove,
      StaysInPhase, Ended, Stop, Lost;
    if OnAttach(s, w) != s {
      AtRow(s, w, exact);
      var Attaching(i, sid, created) := s.processes[w].pc;
      var a := s.attempts[i].(createState := created, session := Some(sid));
      var b := a.(status := Running, reason := NoReason);
      var running := PhaseOf(a.kind).running;
      if CanMove(SetRow(s, i, b), w, running) {
        assert OnAttach(s, w) == MoveOn(s, SetRow(s, i, b), w, running, Polling(i)) by { MoveOnIs(s, i, b, w, running); }
        RowMoveOn(s, w, b, running, Polling(i), exact);
      } else {
        AttachOrphans(s, w, exact);
      }
    }
  }

  lemma MoveOnIs(s: World, i: nat, b: Attempt, w: nat, to: L.CaseState)
    requires w in s.processes && i < |s.attempts| && CanMove(SetRow(s, i, b), w, to)
    ensures MoveOn(s, SetRow(s, i, b), w, to, Polling(i)) == Goto(Moved(SetRow(s, i, b), w, to), w, Polling(i))
  {
    hide CanMove;
  }

  lemma StepRecordRefusal(s: World, w: nat, exact: bool)
    requires HolderAt(s, w)
    requires Own(s, exact) && StaysInPhase(s, OnRecordRefusal(s, w))
    ensures OnRecordRefusal(s, w) == s || Steps(s, OnRecordRefusal(s, w), w, exact)
  {
    hide Own, Steps, Framed, RemoteOk, RowsTraced, L.InRemediation, L.Allowed, RowQuiet, MoveOn, MoveAndStop, FailJob, CanMove,
      StaysInPhase, Ended, Goto, SetRow, Stop, Lost;
    if OnRecordRefusal(s, w) != s {
      AtRow(s, w, exact);
      var i := s.processes[w].pc.attempt;
      var a := s.attempts[i];
      RowFails(s, w, Closed(a, Failed).(createState := ApiError), exact);
    }
  }

  lemma StepRecordUnknown(s: World, w: nat, exact: bool)
    requires HolderAt(s, w)
    requires Own(s, exact) && StaysInPhase(s, OnRecordUnknown(s, w))
    ensures OnRecordUnknown(s, w) == s || Steps(s, OnRecordUnknown(s, w), w, exact)
  {
    hide Own, Steps, Framed, RemoteOk, RowsTraced, L.InRemediation, L.Allowed, RowQuiet, MoveOn, MoveAndStop, FailJob, CanMove,
      StaysInPhase, Ended, Goto, SetRow, Stop, Lost;
    if OnRecordUnknown(s, w) != s {
      AtRow(s, w, exact);
      var i := s.processes[w].pc.attempt;
      var a := s.attempts[i];
      var b := a.(createState := Uncertain, status := Reconciling, reason := OtherReason);
      RowMoveOn(s, w, b, PhaseOf(a.kind).reconciling, BeginReconcile(i), exact);
    }
  }

  lemma StepStartReconcile(s: World, w: nat, exact: bool)
    requires HolderAt(s, w)
    requires Own(s, exact) && StaysInPhase(s, OnStartReconcile(s, w))
    ensures OnStartReconcile(s, w) == s || Steps(s, OnStartReconcile(s, w), w, exact)
  {
    hide Own, Steps, Framed, RemoteOk, RowsTraced, L.InRemediation, L.Allowed, RowQuiet, MoveOn, MoveAndStop, FailJob, CanMove,
      StaysInPhase, Ended, Goto, SetRow, Stop, Lost;
    if OnStartReconcile(s, w) != s {
      AtRow(s, w, exact);
      var i := s.processes[w].pc.attempt;
      var a := s.attempts[i];
      var b := a.(status := Reconciling);
      var marked := if b.createState == CreateState.Pending then b.(createState := Uncertain, reason := OtherReason) else b;
      if s.processes[w].mem == PhaseOf(a.kind).intent {
        RowMoveOn(s, w, marked, PhaseOf(a.kind).reconciling, Searching(i), exact);
      } else {
        RowTo(s, w, marked, Searching(i), exact);
      }
    }
  }

  lemma StepSearch(s: World, w: nat, found: SearchAnswer, exact: bool)
    requires HolderAt(s, w)
    requires Own(s, exact) && StaysInPhase(s, OnSearch(s, w, found))
    ensures OnSearch(s, w, found) == s || Steps(s, OnSearch(s, w, found), w, exact)
  {
    hide Own, Steps, Framed, RemoteOk, RowsTraced, L.InRemediation, L.Allowed, RowQuiet, MoveOn, MoveAndStop, FailJob, CanMove,
      StaysInPhase, Ended, Goto, SetRow, Stop, Lost;
    if OnSearch(s, w, found) != s {
      AtRow(s, w, exact);
      var i := s.processes[w].pc.attempt;
      var a := s.attempts[i];
      match found
      case OneMatch(sid) => RowGoto(s, s, w, Attaching(i, sid, Reconciled), exact);
      case NoSingleMatch => RowGoto(s, s, w, Unmatched(i), exact);
    }
  }

  lemma StepBlockUnmatched(s: World, w: nat, exact: bool)
    requires HolderAt(s, w)
    requires Own(s, exact) && StaysInPhase(s, OnBlockUnmatched(s, w))
    ensures OnBlockUnmatched(s, w) == s || Steps(s, OnBlockUnmatched(s, w), w, exact)
  {
    hide Own, Steps, Framed, RemoteOk, RowsTraced, L.InRemediation, L.Allowed, RowQuiet, MoveOn, MoveAndStop, FailJob, CanMove,
      StaysInPhase, Ended, Goto, SetRow, Stop, Lost;
    if OnBlockUnmatched(s, w) != s {
      AtRow(s, w, exact);
      var i := s.processes[w].pc.attempt;
      var a := s.attempts[i];
      var b := Closed(a, Blocked).(createState := Unresolved, reason := OtherReason);
      RowEnds(s, w, b, PhaseOf(a.kind).humanBlocked, exact);
    }
  }

  /** A snapshot that settles the attempt: only a process that still polls gets here. */
  lemma PollSettles(s: World, w: nat, d: S.Disposition, output: bool, exact: bool)
    requires HolderAt(s, w)
    requires Own(s, exact) && w in s.processes && s.processes[w].pc.PollGet? && s.processes[w].pc.attempt < |s.attempts|
    ensures
      var i := s.processes[w].pc.attempt;
      Steps(s, Goto(SetRow(s, i, s.attempts[i].(status := Running, reason := NoReason)), w, Settled(i, d, output)), w, exact)
  {
    hide Own, Framed, Steps, RemoteOk, RowsTraced, L.InRemediation, RowQuiet;
    AtRow(s, w, exact);
    var i := s.processes[w].pc.attempt;
    var b := s.attempts[i].(status := Running, reason := NoReason);
    FitsFrames(s, w, b, exact);
    RowGoto(s, SetRow(s, i, b), w, Settled(i, d, output), exact);
  }

  lemma StepPollAnswer(s: World, w: nat, got: GetAnswer, exact: bool)
    requires HolderAt(s, w)
    requires Own(s, exact) && StaysInPhase(s, OnPollAnswer(s, w, got))
    ensures OnPollAnswer(s, w, got) == s || Steps(s, OnPollAnswer(s, w, got), w, exact)
  {
    hide Own, Steps, Framed, RemoteOk, RowsTraced, L.InRemediation, L.Allowed, RowQuiet, MoveOn, MoveAndStop, FailJob, CanMove,
      StaysInPhase, Ended, Goto, SetRow, Stop, Lost;
    if OnPollAnswer(s, w, got) != s {
      AtRow(s, w, exact);
      var i := s.processes[w].pc.attempt;
      var a := s.attempts[i];
      match got
      case GetError => RowTo(s, w, a.(status := Reconciling, reason := OtherReason), Polling(i), exact);
      case GetNotFound => RowGoto(s, s, w, SessionLost(i), exact);
      case Snapshot(d, _, output, _) =>
        if d == S.Unknown {
          RowTo(s, w, a.(status := Reconciling, reason := OtherReason), Polling(i), exact);
        } else if d == S.Live {
          RowTo(s, w, a.(status := Running, reason := NoReason), Polling(i), exact);
        } else {
          PollSettles(s, w, d, output, exact);
        }
    }
  }

  lemma StepRecordLost(s: World, w: nat, exact: bool)
    requires HolderAt(s, w)
    requires Own(s, exact) && StaysInPhase(s, OnRecordLost(s, w))
    ensures OnRecordLost(s, w) == s || Steps(s, OnRecordLost(s, w), w, exact)
  {
    hide Own, Steps, Framed, RemoteOk, RowsTraced, L.InRemediation, L.Allowed, RowQuiet, MoveOn, MoveAndStop, FailJob, CanMove,
      StaysInPhase, Ended, Goto, SetRow, Stop, Lost;
    if OnRecordLost(s, w) != s {
      AtRow(s, w, exact);
      var i := s.processes[w].pc.attempt;
      var a := s.attempts[i];
      RowFails(s, w, Closed(a, Failed), exact);
    }
  }

  /** The finished output is recorded before it is judged. */
  lemma OutcomeFinishes(s: World, w: nat, exact: bool)
    requires HolderAt(s, w)
    requires Own(s, exact) && w in s.processes && s.processes[w].pc.Settled? && s.processes[w].pc.disposition == S.Finished
    requires s.processes[w].pc.attempt < |s.attempts|
    ensures
      var i := s.processes[w].pc.attempt;
      Steps(s, Goto(SetRow(s, i, s.attempts[i].(output := s.processes[w].pc.output, finished := true)), w, Finishing(i)), w, exact)
  {
    hide Own, Framed, Steps, RemoteOk, RowsTraced, L.InRemediation, RowQuiet;
    AtRow(s, w, exact);
    var i := s.processes[w].pc.attempt;
    var b := s.attempts[i].(output := s.processes[w].pc.output, finished := true);
    FitsFrames(s, w, b, exact);
    QuietSame(s, SetRow(s, i, b), i);
    RowGoto(s, SetRow(s, i, b), w, Finishing(i), exact);
  }

  lemma StepSettleOutcome(s: World, w: nat, exact: bool)
    requires HolderAt(s, w)
    requires Own(s, exact) && StaysInPhase(s, OnSettleOutcome(s, w))
    ensures OnSettleOutcome(s, w) == s || Steps(s, OnSettleOutcome(s, w), w, exact)
  {
    hide Own, Steps, Framed, RemoteOk, RowsTraced, L.InRemediation, L.Allowed, RowQuiet, MoveOn, MoveAndStop, FailJob, CanMove,
      StaysInPhase, Ended, Goto, SetRow, Stop, Lost;
    if OnSettleOutcome(s, w) != s {
      AtRow(s, w, exact);
      var Settled(i, d, output) := s.processes[w].pc;
      var a := s.attempts[i];
      match d
      case Finished => OutcomeFinishes(s, w, exact);
      case WaitingForHuman => RowEnds(s, w, Closed(a, Blocked), PhaseOf(a.kind).humanBlocked, exact);
      case Failed =>
        RemediationRowsOk(s, exact);
        RowOutsidePhase(s, i);
        RowFails(s, w, Closed(a, AttemptStatus.Failed), exact);
      case _ => RowFails(s, w, Closed(a, AttemptStatus.Failed), exact);
    }
  }

  lemma RemediationRowsOk(s: World, exact: bool)
    requires Own(s, exact)
    ensures RemediationOk(s)
  {}

  lemma StepFinish(s: World, w: nat, valid: bool, exact: bool)
    requires HolderAt(s, w)
    requires Own(s, exact) && StaysInPhase(s, OnFinish(s, w, valid))
    ensures OnFinish(s, w, valid) == s || Steps(s, OnFinish(s, w, valid), w, exact)
  {
    hide Own, Steps, Framed, RemoteOk, RowsTraced, L.InRemediation, L.Allowed, RowQuiet, MoveOn, MoveAndStop, FailJob, CanMove,
      StaysInPhase, Ended, Goto, SetRow, Stop, Lost;
    if OnFinish(s, w, valid) != s {
      AtRow(s, w, exact);
      var i := s.processes[w].pc.attempt;
      var a := s.attempts[i];
      var failed := a.(status := Failed, output := false);
      if a.kind == Remediation {
        RowEnds(s, w, a.(status := Succeeded), L.OutputValidating, exact);
      } else if !valid || !a.output {
        if s.state == L.TerminationPending == s.processes[w].mem { RowIsLast(s, w, failed, exact); }
        RowFails(s, w, failed, exact);
      } else {
        var succeeded := SetRow(s, i, a.(status := Succeeded));
        FitsFrames(s, w, a.(status := Succeeded), exact);
        if CanMove(succeeded, w, L.Triaged) {
          DoubleMoveSteps(s, succeeded, w, exact);
        } else {
          LostSteps(s, s, w, exact);
        }
      }
    }
  }

  lemma StepTimeoutDelete(s: World, w: nat, answer: DeleteAnswer, exact: bool)
    requires HolderAt(s, w)
    requires Own(s, exact) && StaysInPhase(s, OnTimeoutDelete(s, w, answer))
    ensures OnTimeoutDelete(s, w, answer) == s || Steps(s, OnTimeoutDelete(s, w, answer), w, exact)
  {
    hide Own, Steps, Framed, RemoteOk, RowsTraced, L.InRemediation, L.Allowed, RowQuiet, MoveOn, MoveAndStop, FailJob, CanMove,
      StaysInPhase, Ended, Goto, SetRow, Stop, Lost;
    if OnTimeoutDelete(s, w, answer) != s {
      AtRow(s, w, exact);
      var i := s.processes[w].pc.attempt;
      var a := s.attempts[i];
      var t := AfterDelete(s, a.session.value, answer);
      FramedDelete(s, {a.session.value}, {});
      if answer.DeleteError? {
        RowGoto(s, t, w, DeleteFailed(i), exact);
      } else {
        QuietAfterDelete(s, t, i);
        RowGoto(s, t, w, Closing(i), exact);
      }
    }
  }

  lemma StepPark(s: World, w: nat, exact: bool)
    requires HolderAt(s, w)
    requires Own(s, exact) && StaysInPhase(s, OnPark(s, w))
    ensures OnPark(s, w) == s || Steps(s, OnPark(s, w), w, exact)
  {
    hide Own, Steps, Framed, RemoteOk, RowsTraced, L.InRemediation, L.Allowed, RowQuiet, MoveOn, MoveAndStop, FailJob, CanMove,
      StaysInPhase, Ended, Goto, SetRow, Stop, Lost;
    if OnPark(s, w) != s {
      AtRow(s, w, exact);
      var i := s.processes[w].pc.attempt;
      var a := s.attempts[i];
      var keep := a.reason.CancelRequested? || a.reason.WorkerError?;
      var b := a.(status := TerminationPending, reason := if keep then a.reason else OtherReason);
      if s.processes[w].mem != PhaseOf(a.kind).terminationPending {
        RowEnds(s, w, b, PhaseOf(a.kind).terminationPending, exact);
      } else {
        FitsFrames(s, w, b, exact);
        StopSteps(s, SetRow(s, i, b), w, exact);
      }
    }
  }

  /** The search failed: what it deleted stays deleted, and the row says so. */
  lemma SweepStops(s: World, w: nat, sweep: SweepAnswer, exact: bool)
    requires HolderAt(s, w)
    requires Own(s, exact) && w in s.processes && s.processes[w].pc.Sweeping? && s.processes[w].pc.attempt < |s.attempts|
    requires sweep.SweepError?
    ensures
      var i := s.processes[w].pc.attempt;
      Steps(s, Stop(SetRow(AfterSweep(s, sweep), i, s.attempts[i].(reason := OtherReason)), w), w, exact)
  {
    hide Own, Steps, Framed, RowTrace, RowsTraced, RemoteOk, L.InRemediation;
    AtRow(s, w, exact);
    var i := s.processes[w].pc.attempt;
    var swept := AfterSweep(s, sweep);
    var b := s.attempts[i].(reason := OtherReason);
    FramedDelete(s, sweep.deleted, {});
    FramedParts(s, swept, {});
    SweptTrace(swept, i, b);
    FramedRow(swept, i, b, {});
    FramedTrans(s, swept, SetRow(swept, i, b), {});
    StopSteps(s, SetRow(swept, i, b), w, exact);
  }

  lemma SweptTrace(s: World, i: nat, b: Attempt)
    requires RowsTraced(s) && i < |s.attempts| && b == s.attempts[i].(reason := b.reason)
    ensures RowTrace(s.sessions, b)
  {
    assert RowTrace(s.sessions, s.attempts[i]);
  }

  lemma StepSweepTag(s: World, w: nat, sweep: SweepAnswer, exact: bool)
    requires HolderAt(s, w)
    requires Own(s, exact) && StaysInPhase(s, OnSweepTag(s, w, sweep))
    requires exact ==> ExactSearch(s, SweepTag(w, sweep))
    ensures OnSweepTag(s, w, sweep) == s || Steps(s, OnSweepTag(s, w, sweep), w, exact)
  {
    hide Own, Steps, Framed, RemoteOk, RowsTraced, L.InRemediation, L.Allowed, RowQuiet, MoveOn, MoveAndStop, FailJob, CanMove,
      StaysInPhase, Ended, Goto, SetRow, Stop, Lost;
    if OnSweepTag(s, w, sweep) != s {
      AtRow(s, w, exact);
      var i := s.processes[w].pc.attempt;
      if sweep.Swept? {
        FramedDelete(s, sweep.matches, {});
        if exact { QuietAfterSweep(s, i, sweep); }
        RowGoto(s, AfterSweep(s, sweep), w, Closing(i), exact);
      } else {
        SweepStops(s, w, sweep, exact);
      }
    }
  }

  lemma StepCloseOut(s: World, w: nat, expired: bool, exact: bool)
    requires HolderAt(s, w)
    requires Own(s, exact) && StaysInPhase(s, OnCloseOut(s, w, expired))
    ensures OnCloseOut(s, w, expired) == s || Steps(s, OnCloseOut(s, w, expired), w, exact)
  {
    hide Own, Steps, Framed, RemoteOk, RowsTraced, L.InRemediation, L.Allowed, RowQuiet, MoveOn, MoveAndStop, FailJob, CanMove,
      StaysInPhase, Ended, Goto, SetRow, Stop, Lost;
    if OnCloseOut(s, w, expired) != s {
      AtRow(s, w, exact);
      var i := s.processes[w].pc.attempt;
      var a := s.attempts[i];
      var phase := PhaseOf(a.kind);
      var (status, to) :=
        if a.reason.CancelRequested? && !expired then (Cancelled, phase.cancelled)
        else if a.reason.WorkerError? && !expired then (Failed, phase.failed)
        else (TimedOut, phase.timedOut);
      var b := Closed(a, status).(reason := NoReason);
      if exact && s.state == L.TerminationPending { RowIsLast(s, w, b, exact); }
      RowEnds(s, w, b, to, exact);
    }
  }

  /** The process takes over the state it has just read. */
  lemma Refreshes(s: World, m: World, w: nat, pc: Pc, exact: bool)
    requires HolderAt(s, w)
    requires Own(s, exact) && w in s.processes && m == s.(attempts := m.attempts) && Framed(s, m, Free(s, w))
    requires RowOf(s.processes[w].pc).Some? && Plain(pc) && Bound(pc) && RowOf(pc).value < |m.attempts|
    requires Mine(m, RowOf(pc).value) && m.attempts[RowOf(pc).value].session.Some?
    requires s.state == L.TerminationPending ==> TerminatingPc(pc)
    ensures Steps(s, Goto(m.(processes := s.processes[w := s.processes[w].(mem := s.state)]), w, pc), w, exact)
  {
    hide Own, Framed, RowTrace, RowQuiet, L.InRemediation;
    NotBlocked(s, w, exact);
    var t := Goto(m.(processes := s.processes[w := s.processes[w].(mem := s.state)]), w, pc);
    FramedParts(s, m, Free(s, w));
    FramedSame(s, m, t, Free(s, w));
    assert t.processes == s.processes[w := t.processes[w]];
  }

  /** While the case is blocked, its holder works on no row. */
  lemma NotBlocked(s: World, w: nat, exact: bool)
    requires HolderAt(s, w)
    requires Own(s, exact) && w in s.processes && !AtBlockedCase(s.processes[w])
    ensures s.state != L.HumanBlocked
  {
    hide Own, RowPcOk, PcOk;
    AtProcess(s, w, exact);
  }

  lemma StepPollCheck(s: World, w: nat, expired: bool, exact: bool)
    requires HolderAt(s, w)
    requires Own(s, exact) && StaysInPhase(s, OnPollCheck(s, w, expired))
    ensures OnPollCheck(s, w, expired) == s || Steps(s, OnPollCheck(s, w, expired), w, exact)
  {
    hide Own, Framed, Steps, RowsTraced, RemoteOk, L.InRemediation, RowQuiet, Goto;
    if OnPollCheck(s, w, expired) != s {
      AtRow(s, w, exact);
      var i := s.processes[w].pc.attempt;
      var b := s.attempts[i].(status := TerminationPending, reason := CancelRequested);
      if L.IsTerminationPending(s.state) {
        FitsFrames(s, w, b, exact);
        Refreshes(s, SetRow(s, i, b), w, Handling(i), exact);
      } else {
        Refreshes(s, s, w, if expired then Handling(i) else PollGet(i), exact);
      }
    }
  }

  /** The snapshot read at the deadline settles the attempt. */
  lemma TimeoutSettles(s: World, w: nat, d: S.Disposition, output: bool, exact: bool)
    requires HolderAt(s, w)
    requires Own(s, exact) && w in s.processes && s.processes[w].pc.Handling?
    requires s.processes[w].pc.attempt < |s.attempts| && s.attempts[s.processes[w].pc.attempt].session.Some?
    requires d == S.Finished || d == S.WaitingForHuman || d == S.Failed
    requires d == S.Finished ==> RowQuiet(s, s.processes[w].pc.attempt)
    requires d == S.Failed && s.processes[w].mem == L.TerminationPending ==>
               s.attempts[s.processes[w].pc.attempt].kind == Remediation
    ensures
      var i := s.processes[w].pc.attempt;
      Steps(s, Goto(SetRow(s, i, s.attempts[i].(status := Running)), w, Settled(i, d, output)), w, exact)
  {
    hide Own, Framed, Steps, RemoteOk, RowsTraced, L.InRemediation, RowQuiet;
    AtRow(s, w, exact);
    var i := s.processes[w].pc.attempt;
    var m := SetRow(s, i, s.attempts[i].(status := Running));
    FramedRow(s, i, s.attempts[i].(status := Running), Free(s, w));
    QuietSame(s, m, i);
    RowGoto(s, m, w, Settled(i, d, output), exact);
  }

  lemma StepTimeoutGet(s: World, w: nat, got: GetAnswer, exact: bool)
    requires HolderAt(s, w)
    requires Own(s, exact) && StaysInPhase(s, OnTimeoutGet(s, w, got))
    ensures OnTimeoutGet(s, w, got) == s || Steps(s, OnTimeoutGet(s, w, got), w, exact)
  {
    hide Own, Framed, Steps, RemoteOk, RowsTraced, L.InRemediation, RowQuiet, SetRow, Goto, RowTrace;
    if OnTimeoutGet(s, w, got) != s {
      AtRow(s, w, exact);
      var i := s.processes[w].pc.attempt;
      if Quiet(s.sessions, s.attempts[i].session.value) { QuietBySession(s, i); }
      var a := s.attempts[i];
      match got
      case GetError => RowGoto(s, s, w, Deleting(i), exact);
      case GetNotFound => RowGoto(s, s, w, Closing(i), exact);
      case Snapshot(d, ended, output, _) =>
        if d == S.Failed && s.processes[w].mem == PhaseOf(a.kind).terminationPending {
          RowGoto(s, s, w, Closing(i), exact);
        } else if d == S.Finished || d == S.WaitingForHuman || d == S.Failed {
          TimeoutSettles(s, w, d, output, exact);
        } else if ended {
          RowGoto(s, s, w, Closing(i), exact);
        } else {
          RowGoto(s, s, w, Deleting(i), exact);
        }
    }
  }

  lemma StepAbandon(s: World, w: nat, exact: bool)
    requires HolderAt(s, w)
    requires Own(s, exact) && StaysInPhase(s, OnAbandon(s, w))
    ensures OnAbandon(s, w) == s || Steps(s, OnAbandon(s, w), w, exact)
  {
    hide Own, Framed, Steps, OneHolder, SingleOwner, RemoteOk, RemediationOk, L.Allowed, L.InRemediation,
      Stop, Lost, MoveOn, MoveAndStop, FailJob, CanMove, FailureParked;
    if OnAbandon(s, w) != s {
      var p := s.processes[w];
      AtProcess(s, w, exact);
      FramedIdle(s, Free(s, w));
      var unsent := set i | 0 <= i < |s.attempts| && Active(s.attempts[i]) && !s.attempts[i].sent;
      FramedRewrite(s, unsent, CancelledRow, Free(s, w));
      StopSteps(s, s.(attempts := Rewrite(s.attempts, unsent, CancelledRow)), w, exact);
    }
  }

  lemma RereadGoto(s: World, m: World, w: nat, pc: Pc, exact: bool)
    requires HolderAt(s, w)
    requires Own(s, exact) && w in s.processes && s.processes[w].pc.Rereading? && pc.Rereading?
    requires m == s.(attempts := m.attempts) && (m == s || Framed(s, m, Free(s, w)))
    requires s.state == L.HumanBlocked ==> RereadingOk(m, pc.candidates, pc.todo, pc.found)
    ensures Steps(s, Goto(m, w, pc), w, exact)
  {
    hide Own, Framed, Steps, OneHolder, SingleOwner, RemoteOk, RemediationOk, L.InRemediation;
    AtProcess(s, w, exact);
    FramedIdle(s, Free(s, w));
    GotoSteps(s, m, w, pc, exact);
  }

  /** Re-reading an attempt at most changes its reason. */
  lemma RereadingNext(s: World, candidates: seq<nat>, todo: seq<nat>, found: seq<(nat, bool)>, reason: Reason, valid: bool)
    requires RereadingOk(s, candidates, todo, found) && todo != [] && todo[0] < |s.attempts|
    ensures RereadingOk(SetRow(s, todo[0], s.attempts[todo[0]].(reason := reason)), candidates, todo[1..], found)
    ensures RereadingOk(s, candidates, todo[1..], found + [(todo[0], valid)])
  {
    assert todo == [todo[0]] + todo[1..];
  }

  lemma StepReread(s: World, w: nat, got: GetAnswer, exact: bool)
    requires HolderAt(s, w)
    requires Own(s, exact) && StaysInPhase(s, OnReread(s, w, got))
    ensures OnReread(s, w, got) == s || Steps(s, OnReread(s, w, got), w, exact)
  {
    hide Own, RereadingOk, Framed, Steps, OneHolder, SingleOwner, RemoteOk, RemediationOk, L.InRemediation;
    if OnReread(s, w, got) != s {
      AtProcess(s, w, exact);
      var Rereading(candidates, todo, found) := s.processes[w].pc;
      var i, a := todo[0], s.attempts[todo[0]];
      assert RowTrace(s.sessions, a);
      if got.Snapshot? && got.output {
        if s.state == L.HumanBlocked { RereadingNext(s, candidates, todo, found, NoReason, got.valid); }
        RereadGoto(s, s, w, Rereading(candidates, todo[1..], found + [(i, got.valid)]), exact);
      } else {
        var reason := if got.GetError? then OtherReason else NoOutput(got.GetNotFound?);
        if s.state == L.HumanBlocked { RereadingNext(s, candidates, todo, found, reason, false); }
        FramedRow(s, i, a.(reason := reason), Free(s, w));
        RereadGoto(s, SetRow(s, i, a.(reason := reason)), w, Rereading(candidates, todo[1..], found), exact);
      }
    }
  }

  /** One candidate runs again, the others are superseded. */
  lemma IngestFramed(s: World, candidates: seq<nat>, i: nat)
    requires RowsTraced(s) && i in candidates && RereadingOk(s, candidates, [], [])
    ensures i < |s.attempts|
    ensures
      var others := set j <- candidates | j != i;
      var t := SetRow(s.(attempts := Rewrite(s.attempts, others, Superseded)), i,
                      s.attempts[i].(status := Running, reason := NoReason));
      Framed(s, t, set c <- candidates) && OnlyRows(s, t)
  {
    var others := set j <- candidates | j != i;
    var superseded := s.(attempts := Rewrite(s.attempts, others, Superseded));
    FramedRewrite(s, others, Superseded, set c <- candidates);
    FramedParts(s, superseded, set c <- candidates);
    assert RowTrace(s.sessions, s.attempts[i]);
    var b := s.attempts[i].(status := Running, reason := NoReason);
    FramedRow(superseded, i, b, set c <- candidates);
    FramedTrans(s, superseded, SetRow(superseded, i, b), set c <- candidates);
  }

  lemma StepIngest(s: World, w: nat, exact: bool)
    requires HolderAt(s, w)
    requires Own(s, exact) && StaysInPhase(s, OnIngest(s, w))
    ensures OnIngest(s, w) == s || Steps(s, OnIngest(s, w), w, exact)
  {
    hide Own, Framed, Steps, L.Allowed, RowTrace, RowsTraced, Stop, MoveOn, RowQuiet, L.InRemediation, RereadingOk, Retained,
      Owning, Chosen, Lost;
    if OnIngest(s, w) != s {
      var Rereading(candidates, _, found) := s.processes[w].pc;
      AtReading(s, w, exact);
      if found == [] {
        StopSteps(s, s, w, exact);
      } else if s.state == L.HumanBlocked {
        var i := Chosen(found);
        ReadingChoice(s, candidates, found);
        IngestFramed(s, candidates, i);
        var others := set j <- candidates | j != i;
        var b := s.attempts[i].(status := Running, reason := NoReason);
        var t := SetRow(s.(attempts := Rewrite(s.attempts, others, Superseded)), i, b);
        IngestSteps(s, w, t, i, exact);
        hide Goto;
        MoveOnSteps(s, t, w, L.Triaging, Settled(i, S.Finished, true), exact);
      } else {
        LostSteps(s, s, w, exact);
        LateIngest(s, w);
      }
    }
  }

  /** An ingestion is rolled back when the case has moved on. */
  lemma LateIngest(s: World, w: nat)
    requires w in s.processes && s.processes[w].pc.Rereading? && s.processes[w].mem == L.HumanBlocked
    requires s.state != L.HumanBlocked && s.processes[w].pc.found != []
    ensures OnIngest(s, w) == s || OnIngest(s, w) == Lost(s, w)
  {
    hide L.Allowed;
  }

  lemma AtReading(s: World, w: nat, exact: bool)
    requires HolderAt(s, w)
    requires Own(s, exact) && w in s.processes && s.processes[w].pc.Rereading?
    ensures
      var pc := s.processes[w].pc;
      && (s.state == L.HumanBlocked ==> RereadingOk(s, pc.candidates, pc.todo, pc.found)) && RowsTraced(s)
      && Framed(s, s, Free(s, w)) && s.processes[w].mem == L.HumanBlocked
  {
    hide Own;
    AtProcess(s, w, exact);
    FramedIdle(s, Free(s, w));
  }

  /** The chosen attempt is a candidate that still retains its session. */
  lemma ReadingChoice(s: World, candidates: seq<nat>, found: seq<(nat, bool)>)
    requires RereadingOk(s, candidates, [], found) && found != []
    ensures Chosen(found) in candidates && Chosen(found) < |s.attempts| && Retained(s.attempts[Chosen(found)])
    ensures RereadingOk(s, candidates, [], [])
  {}

  /** From re-reading to the settled outcome of one attempt. */
  lemma IngestSteps(s: World, w: nat, t: World, i: nat, exact: bool)
    requires HolderAt(s, w)
    requires Own(s, exact) && w in s.processes && s.processes[w].pc.Rereading?
    requires OnlyRows(s, t) && Framed(s, t, Free(s, w)) && i < |t.attempts|
    requires Active(t.attempts[i]) && t.attempts[i].session.Some?
    ensures ProcessOk(Goto(Moved(t, w, L.Triaging), w, Settled(i, S.Finished, true)),
                      Process(Settled(i, S.Finished, true), L.Triaging, s.processes[w].run, s.processes[w].fence), exact)
  {
    hide Own, Steps, RowTrace, RowsTraced, RemoteOk, RemediationOk, RowQuiet, SessionsAge;
    AtProcess(s, w, exact);
    var u := Goto(Moved(t, w, L.Triaging), w, Settled(i, S.Finished, true));
    OwnerIsMine(t, i);
    assert RowPcOk(u, u.processes[w], exact) by { MineSame(t, u, i); }
  }

  lemma OwnerIsAlone(s: World, i: nat)
    requires SingleOwner(s) && i < |s.attempts| && Owning(s.attempts[i])
    ensures Alone(s, i)
  {}

  lemma OwnerIsMine(s: World, i: nat)
    requires SingleOwner(s) && i < |s.attempts| && Active(s.attempts[i])
    ensures Mine(s, i)
  {
    OwnerIsAlone(s, i);
  }

  lemma TerminateGoto(s: World, m: World, w: nat, pc: Pc, exact: bool)
    requires HolderAt(s, w)
    requires Own(s, exact) && w in s.processes && s.processes[w].pc.Terminating? && pc.Terminating?
    requires m == s.(sessions := m.sessions) && (m == s || Framed(s, m, Free(s, w)))
    requires TerminatingOk(m, pc.todo, pc.closed, pc.parked, exact)
    ensures Steps(s, Goto(m, w, pc), w, exact)
  {
    hide Own, Framed, Steps, OneHolder, SingleOwner, RemoteOk, RemediationOk, L.InRemediation, TerminatingOk;
    AtProcess(s, w, exact);
    FramedIdle(s, Free(s, w));
    TerminatingSame(m, Goto(m, w, pc), pc.todo, pc.closed, pc.parked, exact);
    GotoSteps(s, m, w, pc, exact);
  }

  /** The session of the attempt at the head of the list, or every session with its tag, is gone. */
  lemma HeadEnded(s: World, w: nat, answer: DeleteAnswer, sweep: SweepAnswer, exact: bool)
    requires HolderAt(s, w)
    requires Inv(s) && Own(s, exact) && w in s.processes && s.processes[w].pc.Terminating?
    requires s.processes[w].pc.todo != [] && s.processes[w].pc.todo[0] < |s.attempts|
    requires exact ==> ExactSearch(s, TerminateOne(w, answer, sweep))
    ensures
      var i := s.processes[w].pc.todo[0];
      var a := s.attempts[i];
      if a.session.Some? then
        TruthfulDelete(s, a.session.value, answer) && !answer.DeleteError? ==>
          RowQuiet(AfterDelete(s, a.session.value, answer), i)
      else if a.sent then exact && sweep.Swept? ==> RowQuiet(AfterSweep(s, sweep), i)
      else RowQuiet(s, i)
  {
    hide Inv, HoldersOk, RowQuiet, SingleOwner, OneHolder, RemoteOk, RemediationOk;
    var i := s.processes[w].pc.todo[0];
    var a := s.attempts[i];
    assert RowTrace(s.sessions, a);
    if a.session.Some? {
      if TruthfulDelete(s, a.session.value, answer) && !answer.DeleteError? {
        QuietAfterDelete(s, AfterDelete(s, a.session.value, answer), i);
      }
    } else if a.sent {
      if exact && sweep.Swept? { QuietAfterSweep(s, i, sweep); }
    } else {
      UnsentIsQuiet(s, i);
    }
  }

  lemma StepTerminateOne(s: World, w: nat, answer: DeleteAnswer, sweep: SweepAnswer, exact: bool)
    requires HolderAt(s, w)
    requires Own(s, exact) && StaysInPhase(s, OnTerminateOne(s, w, answer, sweep))
    requires Inv(s) && (exact ==> ExactSearch(s, TerminateOne(w, answer, sweep)))
    ensures OnTerminateOne(s, w, answer, sweep) == s || Steps(s, OnTerminateOne(s, w, answer, sweep), w, exact)
  {
    hide Own, Inv, Framed, Steps, OneHolder, SingleOwner, RemoteOk, RemediationOk, L.Allowed, L.InRemediation,
      Stop, Lost, MoveOn, MoveAndStop, FailJob, CanMove, FailureParked, RowPcOk, RowsTraced, TerminatingOk, SessionsAge, Delete;
    if OnTerminateOne(s, w, answer, sweep) != s {
      var p := s.processes[w];
      AtProcess(s, w, exact);
      var Terminating(todo, closed, parked) := p.pc;
      var i := todo[0];
      var a := s.attempts[i];
      HeadEnded(s, w, answer, sweep, exact);
      var t, ended := s, true;
      DeleteAges(s, {});
      if a.session.Some? {
        t, ended := AfterDelete(s, a.session.value, answer), !answer.DeleteError?;
        FramedDelete(s, {a.session.value}, Free(s, w));
        DeleteAges(s, {a.session.value});
      } else if a.sent {
        t, ended := AfterSweep(s, sweep), sweep.Swept?;
        var sids := if sweep.Swept? then sweep.matches else sweep.deleted;
        FramedDelete(s, sids, Free(s, w));
        DeleteAges(s, sids);
      }
      TerminatingAges(s, t, todo, closed, parked, exact);
      TerminatingNext(t, todo, closed, parked, ended, exact);
      var pc := Terminating(todo[1..], if ended then closed + {i} else closed, if ended then parked else parked + {i});
      TerminateGoto(s, t, w, pc, exact);
    }
  }

  lemma AllEnded(s: World, t: World, closed: set<nat>)
    requires TerminatingOk(s, [], closed, {}, true)
    requires t.attempts == Rewrite(Rewrite(s.attempts, {}, CancelParked), closed, TerminationConfirmed)
    ensures Ended(s, t)
  {}

  /** The rows as `terminate_running_attempts` leaves them. */
  function TerminatedRows(s: World, closed: set<nat>, parked: set<nat>): World {
    s.(attempts := Rewrite(Rewrite(s.attempts, parked, CancelParked), closed, TerminationConfirmed))
  }

  lemma TerminatedFramed(s: World, closed: set<nat>, parked: set<nat>, exact: bool)
    requires RowsTraced(s) && TerminatingOk(s, [], closed, parked, exact)
    ensures Framed(s, TerminatedRows(s, closed, parked), closed + parked)
    ensures OnlyRows(s, TerminatedRows(s, closed, parked))
  {
    hide Framed, RowQuiet, RowsTraced;
    var kept := s.(attempts := Rewrite(s.attempts, parked, CancelParked));
    ParkedFramed(s, parked, closed + parked);
    FramedParts(s, kept, closed + parked);
    ClosedFramed(kept, closed, closed + parked);
    FramedTrans(s, kept, TerminatedRows(s, closed, parked), closed + parked);
  }

  lemma ParkedFramed(s: World, parked: set<nat>, released: set<nat>)
    requires RowsTraced(s) && parked <= released && forall i <- parked :: i < |s.attempts| && Owning(s.attempts[i])
    ensures Framed(s, s.(attempts := Rewrite(s.attempts, parked, CancelParked)), released)
  {
    FramedRewrite(s, parked, CancelParked, released);
  }

  lemma ClosedFramed(s: World, closed: set<nat>, released: set<nat>)
    requires RowsTraced(s) && closed <= released
    ensures Framed(s, s.(attempts := Rewrite(s.attempts, closed, TerminationConfirmed)), released)
  {
    FramedRewrite(s, closed, TerminationConfirmed, released);
  }

  lemma AtTermination(s: World, w: nat, exact: bool)
    requires HolderAt(s, w)
    requires Own(s, exact) && w in s.processes && s.processes[w].pc.Terminating?
    ensures RowsTraced(s) && TerminatingOk(s, s.processes[w].pc.todo, s.processes[w].pc.closed, s.processes[w].pc.parked, exact)
  {
    hide Own;
    AtProcess(s, w, exact);
  }

  lemma StepTerminateCommit(s: World, w: nat, exact: bool)
    requires HolderAt(s, w)
    requires Own(s, exact) && StaysInPhase(s, OnTerminateCommit(s, w))
    ensures OnTerminateCommit(s, w) == s || Steps(s, OnTerminateCommit(s, w), w, exact)
  {
    hide Own, Framed, Steps, RowsTraced, TerminatingOk, L.Allowed, L.InRemediation, Stop, MoveAndStop, Ended;
    if OnTerminateCommit(s, w) != s {
      var Terminating(_, closed, parked) := s.processes[w].pc;
      AtTermination(s, w, exact);
      TerminatedFramed(s, closed, parked, exact);
      if parked != {} {
        StopSteps(s, TerminatedRows(s, closed, parked), w, exact);
      } else {
        if exact { AllEnded(s, TerminatedRows(s, closed, parked), closed); }
        MoveSteps(s, TerminatedRows(s, closed, parked), w, L.PhaseForState(s.processes[w].mem).cancelled, exact);
      }
    }
  }

  /** The picked row is pending, and remediation rows exist only in the remediation phase. */
  lemma SweepEntrySteps(s: World, w: nat, exact: bool)
    requires HolderAt(s, w)
    requires Own(s, exact) && w in s.processes && s.processes[w].pc.Dispatching?
    requires L.IsTerminationPending(s.processes[w].mem)
    ensures Steps(s, Goto(s, w, Terminating(Select(s.attempts, Owning, |s.attempts|), {}, {})), w, exact)
  {
    hide Own, Framed, Steps, OneHolder, SingleOwner, RemoteOk, RowQuiet, RowsTraced, SettlingOk, RereadingOk, RowTrace;
    AtProcess(s, w, exact);
    FramedIdle(s, Free(s, w));
    GotoSteps(s, s, w, Terminating(Select(s.attempts, Owning, |s.attempts|), {}, {}), exact);
  }

  lemma TerminationEntrySteps(s: World, w: nat, pick: nat, remediation: bool, exact: bool)
    requires HolderAt(s, w)
    requires Own(s, exact) && w in s.processes && s.processes[w].pc.Dispatching?
    requires L.IsTerminationPending(s.processes[w].mem)
    requires remediation == (s.processes[w].mem == L.RemediationTerminationPending)
    ensures TerminationEntry(s, w, pick, remediation) == s || Steps(s, TerminationEntry(s, w, pick, remediation), w, exact)
  {
    hide Own, Framed, Steps, OneHolder, SingleOwner, RemoteOk, RowQuiet, RowsTraced, SettlingOk, RereadingOk, RowTrace,
      TerminatingOk;
    if forall i | 0 <= i < |s.attempts| :: !SessionProtocol.Pending(s.attempts[i]) {
      SweepEntrySteps(s, w, exact);
    } else if pick < |s.attempts| && SessionProtocol.Pending(s.attempts[pick]) {
      AtProcess(s, w, exact);
      FramedIdle(s, Free(s, w));
      assert s.attempts[pick] in s.attempts;
      GotoSteps(s, s, w, Entered(if remediation then Remediation else s.attempts[pick].kind), exact);
    }
  }

  lemma StepDispatch(s: World, w: nat, pick: nat, exact: bool)
    requires HolderAt(s, w)
    requires Own(s, exact) && StaysInPhase(s, OnDispatch(s, w, pick))
    ensures OnDispatch(s, w, pick) == s || Steps(s, OnDispatch(s, w, pick), w, exact)
  {
    hide Own, Framed, Steps, OneHolder, SingleOwner, RemoteOk, RemediationOk, Stop, NewestActiveIsTriage, RowQuiet,
      RowsTraced, TerminationEntry;
    if OnDispatch(s, w, pick) != s {
      var p := s.processes[w];
      AtProcess(s, w, exact);
      FramedIdle(s, Free(s, w));
      if L.IsTerminationPending(p.mem) {
        TerminationEntrySteps(s, w, pick, p.mem == L.RemediationTerminationPending, exact);
      } else if p.mem == L.HumanBlocked {
        RetainedSteps(s, w, exact);
      } else if OnDispatch(s, w, pick) == Stop(s, w) {
        StopSteps(s, s, w, exact);
      } else {
        GotoSteps(s, s, w, Entered(if p.mem in L.REMEDIATION_SESSION_STATES then Remediation else Triage), exact);
      }
    }
  }

  lemma RetainedSteps(s: World, w: nat, exact: bool)
    requires HolderAt(s, w)
    requires Own(s, exact) && w in s.processes && s.processes[w].pc.Dispatching? && s.processes[w].mem == L.HumanBlocked
    ensures Steps(s, Goto(s, w, Rereading(RetainedRows(s.attempts), RetainedRows(s.attempts), [])), w, exact)
  {
    hide Own, Framed, Steps, OneHolder, SingleOwner, RemoteOk, RowQuiet, RowsTraced, RemediationOk;
    AtProcess(s, w, exact);
    FramedIdle(s, Free(s, w));
    GotoSteps(s, s, w, Rereading(RetainedRows(s.attempts), RetainedRows(s.attempts), []), exact);
  }

  lemma StepPipelineMove(s: World, w: nat, to: L.CaseState, flagged: bool, exact: bool)
    requires HolderAt(s, w)
    requires Own(s, exact) && StaysInPhase(s, OnPipelineMove(s, w, to, flagged))
    ensures OnPipelineMove(s, w, to, flagged) == s || Steps(s, OnPipelineMove(s, w, to, flagged), w, exact)
  {
    hide Own, Framed, OneHolder, SingleOwner, RemoteOk, L.Allowed;
    if OnPipelineMove(s, w, to, flagged) != s {
      AtProcess(s, w, exact);
      L.RemediationIsClosed(s.processes[w].mem, to, flagged);
      FramedIdle(s, Free(s, w));
      FramedSame(s, s, OnPipelineMove(s, w, to, flagged), Free(s, w));
    }
  }

  lemma StepEnter(s: World, w: nat, granted: bool, exact: bool)
    requires HolderAt(s, w)
    requires Own(s, exact) && StaysInPhase(s, OnEnter(s, w, granted))
    ensures OnEnter(s, w, granted) == s || Steps(s, OnEnter(s, w, granted), w, exact)
  {
    hide Own, Framed, Steps, OneHolder, RemoteOk, RemediationOk, SingleOwner, L.Allowed, L.InRemediation, Stop, FailJob, MoveOn, CanMove;
    if OnEnter(s, w, granted) != s {
      var p := s.processes[w];
      AtProcess(s, w, exact);
      FramedIdle(s, Free(s, w));
      var kind := p.pc.kind;
      match NewestActive(s.attempts, kind, |s.attempts|)
      case None =>
        var ordinal := NextOrdinal(s.attempts, kind);
        if !granted {
          StopSteps(s, s, w, exact);
        } else if ordinal > s.config.maxAttempts {
          FailSteps(s, s, w, exact);
        } else {
          EntrySettles(s, w, exact);
        }
      case Some(i) => ResumeSteps(s, w, i, granted, exact);
    }
  }

  function EntryPlan(s: World, kind: Kind): Pc {
    Settling(kind, NextOrdinal(s.attempts, kind), Select(s.attempts, a => Unsettled(a, kind), |s.attempts|), {})
  }

  /** With no active attempt of the kind, the settling loop starts with all that may own a session. */
  lemma EntryPlanOk(s: World, w: nat, exact: bool)
    requires Own(s, exact) && w in s.processes && s.processes[w].pc.Entered?
    requires HolderAt(s, w) && NewestActive(s.attempts, s.processes[w].pc.kind, |s.attempts|).None?
    ensures
      var kind := s.processes[w].pc.kind;
      var plan := EntryPlan(s, kind);
      SettlingOk(s, kind, plan.todo, {}) && PlanFresh(s, kind, plan.ordinal)
    ensures s.processes[w].mem != L.TerminationPending && Framed(s, s, Free(s, w))
  {
    hide Own, Framed, RemoteOk, RemediationOk, SingleOwner, RowsTraced, L.InRemediation, RowPcOk;
    AtProcess(s, w, exact);
    FramedIdle(s, Free(s, w));
  }

  lemma EntryProcessOk(s: World, w: nat, exact: bool)
    requires Own(s, exact) && w in s.processes && s.processes[w].pc.Entered?
    requires HolderAt(s, w) && NewestActive(s.attempts, s.processes[w].pc.kind, |s.attempts|).None?
    ensures
      var plan := EntryPlan(s, s.processes[w].pc.kind);
      ProcessOk(Goto(s, w, plan), s.processes[w].(pc := plan), exact)
  {
    hide Own, Framed, NextOrdinal, NewestActive, SettlingOk, RowTrace, L.InRemediation;
    AtProcess(s, w, exact);
    EntryPlanOk(s, w, exact);
    var kind := s.processes[w].pc.kind;
    SettlingSame(s, Goto(s, w, EntryPlan(s, kind)), kind, EntryPlan(s, kind).todo, {});
  }

  lemma EntrySettles(s: World, w: nat, exact: bool)
    requires HolderAt(s, w)
    requires Own(s, exact) && w in s.processes && s.processes[w].pc.Entered?
    requires NewestActive(s.attempts, s.processes[w].pc.kind, |s.attempts|).None?
    ensures Steps(s, Goto(s, w, EntryPlan(s, s.processes[w].pc.kind)), w, exact)
  {
    hide Own, Framed, Steps, ProcessOk, NewestActive, EntryPlan;
    EntryPlanOk(s, w, exact);
    EntryProcessOk(s, w, exact);
    GotoSteps(s, s, w, EntryPlan(s, s.processes[w].pc.kind), exact);
  }

  /** What a process that enters a run knows of the newest active attempt; while the case waits for
      its termination, that is the one pending attempt. */
  lemma AtEntry(s: World, w: nat, i: nat, exact: bool)
    requires HolderAt(s, w)
    requires Own(s, exact) && w in s.processes && s.processes[w].pc.Entered?
    requires NewestActive(s.attempts, s.processes[w].pc.kind, |s.attempts|) == Some(i)
    ensures Framed(s, s, Free(s, w)) && RowsTraced(s) && RowTrace(s.sessions, s.attempts[i])
    ensures Active(s.attempts[i]) && s.attempts[i].kind == s.processes[w].pc.kind && Mine(s, i)
    ensures s.state != L.HumanBlocked
    ensures s.processes[w].mem == L.TerminationPending ==> s.attempts[i].status == TerminationPending
  {
    hide Own, Framed, Steps, OneHolder, RemoteOk, RemediationOk, L.InRemediation, RowQuiet;
    AtProcess(s, w, exact);
    FramedIdle(s, Free(s, w));
    OwnerIsMine(s, i);
    var kind := s.processes[w].pc.kind;
    if s.processes[w].mem == L.TerminationPending {
      var j :| 0 <= j < |s.attempts| && s.attempts[j].kind == kind && s.attempts[j].status == TerminationPending;
      SoleIndex(s, i, j);
    }
  }

  /** From the entry of a run to a point that works on an active attempt. */
  lemma EntryGoto(s: World, w: nat, pc: Pc, exact: bool)
    requires HolderAt(s, w)
    requires Own(s, exact) && w in s.processes && s.processes[w].pc.Entered? && Framed(s, s, Free(s, w))
    requires Plain(pc) && RowNowOk(s, pc)
    requires s.processes[w].mem == L.TerminationPending ==> TerminatingPc(pc)
    ensures Steps(s, Goto(s, w, pc), w, exact)
  {
    hide Own, Framed, Steps, OneHolder, RemoteOk, RemediationOk, SingleOwner, RowsTraced, L.InRemediation, RowQuiet;
    AtProcess(s, w, exact);
    GotoSteps(s, s, w, pc, exact);
  }

  ghost predicate RowNowOk(s: World, pc: Pc)
    requires RowOf(pc).Some?
  {
    && RowOf(pc).value < |s.attempts| && Mine(s, RowOf(pc).value)
    && (Bound(pc) ==> s.attempts[RowOf(pc).value].session.Some?)
    && (Unbound(pc) ==> s.attempts[RowOf(pc).value].session.None? && Active(s.attempts[RowOf(pc).value]))
  }

  /** An active attempt is resumed. */
  lemma ResumeSteps(s: World, w: nat, i: nat, granted: bool, exact: bool)
    requires HolderAt(s, w)
    requires Own(s, exact) && StaysInPhase(s, OnEnter(s, w, granted))
    requires w in s.processes && s.processes[w].pc.Entered?
    requires NewestActive(s.attempts, s.processes[w].pc.kind, |s.attempts|) == Some(i)
    ensures Steps(s, OnEnter(s, w, granted), w, exact)
  {
    hide Own, Framed, Steps, RowsTraced, RowTrace, L.Allowed, MoveOn, CanMove, L.InRemediation, Goto, NewestActive;
    AtEntry(s, w, i, exact);
    var p, a := s.processes[w], s.attempts[i];
    if a.status == TerminationPending {
      EntryGoto(s, w, if a.session.None? then Sweeping(i) else Handling(i), exact);
    } else if a.session.None? {
      EntryGoto(s, w, BeginReconcile(i), exact);
    } else if p.mem == PhaseOf(p.pc.kind).reconciling || p.mem == PhaseOf(p.pc.kind).intent {
      EntryMoves(s, w, i, PhaseOf(p.pc.kind).running, exact);
    } else {
      EntryGoto(s, w, Polling(i), exact);
    }
  }

  lemma EntryMoves(s: World, w: nat, i: nat, to: L.CaseState, exact: bool)
    requires HolderAt(s, w)
    requires RowsTraced(s) && w in s.processes && Framed(s, s, Free(s, w)) && StaysInPhase(s, MoveOn(s, s, w, to, Polling(i)))
    requires RowNowOk(s, Polling(i)) && !L.Terminal(to) && to != L.TerminationPending && to != L.HumanBlocked
    ensures Steps(s, MoveOn(s, s, w, to, Polling(i)), w, exact)
  {
    hide Framed, Steps, RowsTraced, L.InRemediation, MoveOn, CanMove;
    MoveOnSteps(s, s, w, to, Polling(i), exact);
  }
}
