/** An account of every session at work: its attempt owns it, or was let go of in one of four ways -
    by an orphaning attach, by a settling loop for an unresolved create that an operator vouched for,
    by a search by tag that missed it, or by a re-reading of its output while it was still at work. */
module SessionAccount {
  import opened Wrappers
  import opened Tags
  import opened SessionModel
  import opened SessionProtocol
  import opened SessionSafety
  import opened SessionOwnership
  import opened SessionSharing
  import opened SessionHandover
  import opened SessionOrphan
  import L = Lifecycle
  import S = Status

  // ------------------------------------------------------------------ the account

  /** Nothing works with the key of row `i`, or the row is excused. */
  ghost predicate Done(s: World, i: nat, excused: set<nat>) {
    i < |s.attempts| && (i in excused || RowQuiet(s, i))
  }

  /** Whatever the process is about to let go of is done. */
  ghost predicate PcCovered(s: World, pc: Pc, excused: set<nat>) {
    match pc
    case Refused(i) => Done(s, i, excused)
    case SessionLost(i) => Done(s, i, excused)
    case Settled(i, d, _) => d == S.WaitingForHuman || Done(s, i, excused)
    case Finishing(i) => Done(s, i, excused)
    case Closing(i) => Done(s, i, excused)
    case Terminating(_, closed, _) => forall i <- closed :: Done(s, i, excused)
    case Rereading(_, _, found) => forall e <- found :: Done(s, e.0, excused)
    case _ => true
  }

  ghost predicate Covered(s: World, excused: set<nat>) {
    && (forall i | 0 <= i < |s.attempts| :: Owning(s.attempts[i]) || Done(s, i, excused))
    && (forall w <- s.processes :: PcCovered(s, s.processes[w].pc, excused))
  }

  /** An operator has vouched that the create of row `i` came to nothing, and the row is given up. */
  predicate Vouched(s: World, t: World, w: nat, i: nat) {
    && w in s.processes && (s.processes[w].pc.Settling? || s.processes[w].pc.SettleDelete?) && i in s.processes[w].pc.closed
    && i < |s.attempts| && i < |t.attempts|
    && s.attempts[i].createState == Unresolved && s.attempts[i].reason == Acknowledged && !Owning(t.attempts[i])
  }

  /** The step from `s` to `t` lets go of row `i`, or will make others do so, while something works
      with its key. */
  ghost predicate LetsGo(s: World, e: Event, t: World, i: nat) {
    && i < |s.attempts| && i < |t.attempts| && t != s && !RowQuiet(t, i)
    && match e
       case Attach(w) => TooLateToAttach(s, w) && s.processes[w].pc.attempt == i
       case SettleStep(w, _) => Vouched(s, t, w, i)
       case SettleDeleted(w, _) => Vouched(s, t, w, i)
       case SettleCommit(w) => Vouched(s, t, w, i)
       case SweepTag(w, sweep) => w in s.processes && s.processes[w].pc == Sweeping(i) && sweep.Swept?
       case TerminateOne(w, _, sweep) =>
         && w in s.processes && s.processes[w].pc.Terminating? && s.processes[w].pc.todo != [] && s.processes[w].pc.todo[0] == i
         && s.attempts[i].session.None? && sweep.Swept?
       case Reread(w, got) =>
         && w in s.processes && s.processes[w].pc.Rereading? && s.processes[w].pc.todo != [] && s.processes[w].pc.todo[0] == i
         && got.Snapshot? && got.output
       case _ => false
  }

  ghost predicate Excuses(s: World, e: Event, t: World, excused: set<nat>) {
    forall i | 0 <= i < |s.attempts| :: LetsGo(s, e, t, i) ==> i in excused
  }

  // ------------------------------------------------------------------ the shape of a step

  /** The rows keep their keys, the remote ages, and what is let go of is done. */
  ghost predicate Fair(s: World, t: World, excused: set<nat>) {
    && |t.attempts| == |s.attempts| && SessionsAge(s.sessions, t.sessions)
    && (forall i | 0 <= i < |s.attempts| :: t.attempts[i].key == s.attempts[i].key)
    && (forall i | 0 <= i < |s.attempts| && Owning(s.attempts[i]) && !Owning(t.attempts[i]) :: Done(t, i, excused))
  }

  ghost predicate Accounts(s: World, t: World, w: nat, excused: set<nat>) {
    && Fair(s, t, excused)
    && (t.processes == s.processes - {w} || (w in t.processes && t.processes == s.processes[w := t.processes[w]]))
    && (w in t.processes ==> PcCovered(t, t.processes[w].pc, excused))
  }

  lemma DoneStays(s: World, t: World, i: nat, excused: set<nat>)
    requires Done(s, i, excused) && SessionsAge(s.sessions, t.sessions) && i < |t.attempts| && t.attempts[i].key == s.attempts[i].key
    ensures Done(t, i, excused)
  {
    forall x <- t.sessions ensures t.sessions[x].tag == t.attempts[i].key && i !in excused ==> t.sessions[x].phase != Working {
      assert Aged(s.sessions[x], t.sessions[x]);
    }
  }

  lemma PointStays(s: World, t: World, pc: Pc, excused: set<nat>)
    requires PcCovered(s, pc, excused) && SessionsAge(s.sessions, t.sessions) && |s.attempts| <= |t.attempts|
    requires forall i | 0 <= i < |s.attempts| :: t.attempts[i].key == s.attempts[i].key
    ensures PcCovered(t, pc, excused)
  {
    hide Done;
    forall i | 0 <= i < |s.attempts| && Done(s, i, excused) ensures Done(t, i, excused) { DoneStays(s, t, i, excused); }
    forall i: nat | Done(s, i, excused) ensures i < |s.attempts| { DoneIsRow(s, i, excused); }
  }

  lemma DoneIsRow(s: World, i: nat, excused: set<nat>)
    requires Done(s, i, excused)
    ensures i < |s.attempts|
  {}

  lemma AccountsKeep(s: World, t: World, w: nat, excused: set<nat>)
    requires Covered(s, excused) && Accounts(s, t, w, excused)
    ensures Covered(t, excused)
  {
    hide Done, PcCovered, Owning, SessionsAge;
    forall i | 0 <= i < |t.attempts| ensures Owning(t.attempts[i]) || Done(t, i, excused) {
      if !Owning(s.attempts[i]) { DoneStays(s, t, i, excused); }
    }
    forall v <- t.processes ensures PcCovered(t, t.processes[v].pc, excused) {
      if v != w { PointStays(s, t, s.processes[v].pc, excused); }
    }
  }

  // What a transaction may do to the data.

  lemma FairIdle(s: World, excused: set<nat>)
    ensures Fair(s, s, excused)
  {}

  lemma FairRow(s: World, i: nat, b: Attempt, excused: set<nat>)
    requires i < |s.attempts| && b.key == s.attempts[i].key && (Owning(b) || !Owning(s.attempts[i]) || Done(s, i, excused))
    ensures Fair(s, SetRow(s, i, b), excused) && OnlyRows(s, SetRow(s, i, b))
  {
    hide Owning;
  }

  lemma FairRewrite(s: World, which: set<nat>, f: Attempt -> Attempt, excused: set<nat>)
    requires forall i <- which | i < |s.attempts| ::
               && f(s.attempts[i]).key == s.attempts[i].key
               && (Owning(f(s.attempts[i])) || !Owning(s.attempts[i]) || Done(s, i, excused))
    ensures
      var t := s.(attempts := Rewrite(s.attempts, which, f));
      Fair(s, t, excused) && OnlyRows(s, t)
  {
    hide Owning;
  }

  lemma FairDelete(s: World, sids: set<nat>, excused: set<nat>)
    ensures Fair(s, s.(sessions := Delete(s.sessions, sids)), excused)
  {
    hide Owning, Done;
  }

  // What ends a transaction.

  lemma AccountsGoto(s: World, m: World, w: nat, pc: Pc, excused: set<nat>)
    requires Fair(s, m, excused) && w in s.processes && m.processes == s.processes && PcCovered(m, pc, excused)
    ensures Accounts(s, Goto(m, w, pc), w, excused)
  {
    hide Owning, SessionsAge;
  }

  lemma AccountsEnd(s: World, m: World, w: nat, excused: set<nat>)
    requires Fair(s, m, excused) && w in s.processes && m.processes == s.processes
    ensures Accounts(s, Stop(m, w), w, excused) && Accounts(s, Lost(m, w), w, excused)
  {
    hide Owning, SessionsAge;
  }

  lemma AccountsMoved(s: World, changed: World, w: nat, to: L.CaseState, pc: Pc, excused: set<nat>)
    requires Fair(s, changed, excused) && w in s.processes && OnlyRows(s, changed) && PcCovered(changed, pc, excused)
    ensures Accounts(s, Goto(Moved(changed, w, to), w, pc), w, excused) && Accounts(s, Stop(Moved(changed, w, to), w), w, excused)
  {
    hide Owning, SessionsAge;
  }

  lemma AccountsMove(s: World, changed: World, w: nat, to: L.CaseState, pc: Pc, excused: set<nat>)
    requires Fair(s, changed, excused) && w in s.processes && OnlyRows(s, changed) && PcCovered(changed, pc, excused)
    ensures Accounts(s, MoveOn(s, changed, w, to, pc), w, excused) && Accounts(s, MoveAndStop(s, changed, w, to), w, excused)
  {
    hide Accounts, Fair, PcCovered, CanMove, Lost, Stop, Goto;
    FairIdle(s, excused);
    AccountsEnd(s, s, w, excused);
    AccountsMoved(s, changed, w, to, pc, excused);
  }

  lemma AccountsFail(s: World, changed: World, w: nat, excused: set<nat>)
    requires Fair(s, changed, excused) && w in s.processes && OnlyRows(s, changed)
    ensures Accounts(s, FailJob(s, changed, w), w, excused)
  {
    hide FailJob, Done, SessionsAge;
    var t := FailJob(s, changed, w);
    var parked := Rewrite(changed.attempts, LiveRows(changed.attempts), FailureParked);
    forall i | 0 <= i < |s.attempts| && Owning(s.attempts[i]) && !Owning(t.attempts[i]) ensures Done(t, i, excused) {
      if t.attempts != s.attempts { assert t.attempts[i].key == changed.attempts[i].key; DoneStays(changed, t, i, excused); }
    }
  }

  /** Program points without an obligation. */
  predicate Carefree(pc: Pc) {
    !pc.Refused? && !pc.SessionLost? && !pc.Settled? && !pc.Finishing? && !pc.Closing? && !pc.Terminating? && !pc.Rereading?
  }

  lemma CarefreeIsCovered(s: World, pc: Pc, excused: set<nat>)
    requires Carefree(pc)
    ensures PcCovered(s, pc, excused)
  {}

  /** Whatever a transaction about row `i` ends with. */
  lemma AccountsRow(s: World, w: nat, i: nat, b: Attempt, to: L.CaseState, pc: Pc, excused: set<nat>)
    requires w in s.processes && i < |s.attempts| && b.key == s.attempts[i].key
    requires Owning(b) || !Owning(s.attempts[i]) || Done(s, i, excused)
    requires PcCovered(s, pc, excused)
    ensures
      var changed := SetRow(s, i, b);
      && OnlyRows(s, changed) && Accounts(s, Goto(changed, w, pc), w, excused) && Accounts(s, Stop(changed, w), w, excused)
      && Accounts(s, FailJob(s, changed, w), w, excused)
      && Accounts(s, MoveOn(s, changed, w, to, pc), w, excused) && Accounts(s, MoveAndStop(s, changed, w, to), w, excused)
      && Accounts(s, Goto(s, w, pc), w, excused) && Accounts(s, Lost(s, w), w, excused) && Accounts(s, Stop(s, w), w, excused)
  {
    hide Accounts, Fair, PcCovered, Done, Owning, Goto, Stop, Lost, FailJob, MoveOn, MoveAndStop;
    var changed := SetRow(s, i, b);
    FairRow(s, i, b, excused);
    FairIdle(s, excused);
    PointStays(s, changed, pc, excused);
    AccountsGoto(s, changed, w, pc, excused);
    AccountsGoto(s, s, w, pc, excused);
    AccountsEnd(s, changed, w, excused);
    AccountsEnd(s, s, w, excused);
    AccountsFail(s, changed, w, excused);
    AccountsMove(s, changed, w, to, pc, excused);
  }

  // What is known of the process and of the rows.

  lemma AtPoint(s: World, w: nat, excused: set<nat>)
    requires Covered(s, excused) && w in s.processes
    ensures PcCovered(s, s.processes[w].pc, excused)
  {
    hide PcCovered, Done;
  }

  lemma OwnData(s: World)
    requires Own(s, false)
    ensures RowsTraced(s) && RemoteOk(s) && SingleOwner(s)
  {
    hide ProcessOk, OperatorOk, RowsTraced, SingleOwner, RemoteOk, RemediationOk, TriagingOk, OneHolder;
  }

  /** The session that row `i` names does not work. */
  lemma NamedIsDone(s: World, i: nat, excused: set<nat>)
    requires Own(s, false) && i < |s.attempts| && s.attempts[i].session.Some? && Quiet(s.sessions, s.attempts[i].session.value)
    ensures Done(s, i, excused)
  {
    hide Own, RemoteOk;
    OwnData(s);
    QuietBySession(s, i);
  }

  lemma UnsentIsDone(s: World, i: nat, excused: set<nat>)
    requires Inv(s) && Own(s, false) && i < |s.attempts| && !s.attempts[i].sent
    ensures Done(s, i, excused)
  {
    hide Own, Inv, RemoteOk;
    OwnData(s);
    UnsentIsQuiet(s, i);
  }

  lemma FairPair(s: World, w: nat, pc: Pc, excused: set<nat>)
    requires w in s.processes && Carefree(pc)
    ensures Fair(s, s, excused) && Accounts(s, Goto(s, w, pc), w, excused) && Accounts(s, Stop(s, w), w, excused)
    ensures Accounts(s, Lost(s, w), w, excused)
  {
    hide Fair, Accounts, PcCovered, Goto, Stop, Lost;
    FairIdle(s, excused);
    CarefreeIsCovered(s, pc, excused);
    AccountsGoto(s, s, w, pc, excused);
    AccountsEnd(s, s, w, excused);
  }

  // One lemma per step.

  lemma AccountEvaluate(s: World, w: nat, excused: set<nat>)
    requires Inv(s) && Own(s, false) && Covered(s, excused)
    ensures OnEvaluate(s, w) == s || Accounts(s, OnEvaluate(s, w), w, excused)
  {
    hide Own, Inv, Covered, Accounts, Fair, Goto, Stop, Lost, FailJob, MoveOn, MoveAndStop, CanMove, L.Allowed, PcCovered, Done;
    if OnEvaluate(s, w) != s {
      FairIdle(s, excused);
      CarefreeIsCovered(s, Evaluated, excused);
      AccountsMove(s, s, w, L.EligibilityEvaluated, Evaluated, excused);
    }
  }

  lemma AccountAdmit(s: World, w: nat, eligible: bool, excused: set<nat>)
    requires Inv(s) && Own(s, false) && Covered(s, excused)
    ensures OnAdmit(s, w, eligible) == s || Accounts(s, OnAdmit(s, w, eligible), w, excused)
  {
    hide Own, Inv, Covered, Accounts, Fair, Goto, Stop, Lost, FailJob, MoveOn, MoveAndStop, CanMove, L.Allowed, PcCovered, Done;
    if OnAdmit(s, w, eligible) != s {
      FairIdle(s, excused);
      CarefreeIsCovered(s, Entered(Triage), excused);
      AccountsMove(s, s, w, L.TriageCreateIntent, Entered(Triage), excused);
      AccountsMove(s, s, w, L.PolicyRejected, Entered(Triage), excused);
    }
  }

  lemma AccountDispatch(s: World, w: nat, pick: nat, excused: set<nat>)
    requires Inv(s) && Own(s, false) && Covered(s, excused)
    ensures OnDispatch(s, w, pick) == s || Accounts(s, OnDispatch(s, w, pick), w, excused)
  {
    hide Own, Inv, Covered, Accounts, Fair, Goto, Stop, Lost, FailJob, MoveOn, MoveAndStop, CanMove, L.Allowed, PcCovered, Done, Select, RetainedRows, NewestActiveIsTriage;
    if OnDispatch(s, w, pick) != s {
      FairPair(s, w, Entered(Triage), excused);
      FairPair(s, w, Entered(Remediation), excused);
      if pick < |s.attempts| { FairPair(s, w, Entered(s.attempts[pick].kind), excused); }
      StartingLists(s, w, excused);
    }
  }

  /** No list starts with a row that is done with. */
  lemma StartingLists(s: World, w: nat, excused: set<nat>)
    requires w in s.processes
    ensures Accounts(s, Goto(s, w, Terminating(Select(s.attempts, Owning, |s.attempts|), {}, {})), w, excused)
    ensures Accounts(s, Goto(s, w, Rereading(RetainedRows(s.attempts), RetainedRows(s.attempts), [])), w, excused)
  {
    hide Accounts, Fair, Goto, Select, RetainedRows;
    FairIdle(s, excused);
    AccountsGoto(s, s, w, Terminating(Select(s.attempts, Owning, |s.attempts|), {}, {}), excused);
    AccountsGoto(s, s, w, Rereading(RetainedRows(s.attempts), RetainedRows(s.attempts), []), excused);
  }

  lemma AccountPipelineMove(s: World, w: nat, to: L.CaseState, flagged: bool, excused: set<nat>)
    requires Inv(s) && Own(s, false) && Covered(s, excused)
    ensures OnPipelineMove(s, w, to, flagged) == s || Accounts(s, OnPipelineMove(s, w, to, flagged), w, excused)
  {
    hide Own, Inv, Covered, Accounts, Fair, Goto, Stop, Lost, FailJob, MoveOn, MoveAndStop, CanMove, L.Allowed, PcCovered, Done;
    if OnPipelineMove(s, w, to, flagged) != s {
      FairIdle(s, excused);
      CarefreeIsCovered(s, Dispatching, excused);
      AccountsMoved(s, s, w, to, Dispatching, excused);
      assert Moved(s, w, to) == Goto(Moved(s, w, to), w, Dispatching) by { MovedStays(s, w, to); }
    }
  }

  lemma AccountPipelineFail(s: World, w: nat, excused: set<nat>)
    requires Inv(s) && Own(s, false) && Covered(s, excused)
    ensures OnPipelineFail(s, w) == s || Accounts(s, OnPipelineFail(s, w), w, excused)
  {
    hide Own, Inv, Covered, Accounts, Fair, Goto, Stop, Lost, FailJob, MoveOn, MoveAndStop, CanMove, L.Allowed, PcCovered, Done;
    if OnPipelineFail(s, w) != s {
      FairIdle(s, excused);
      AccountsFail(s, s, w, excused);
    }
  }

  lemma AccountEnter(s: World, w: nat, granted: bool, excused: set<nat>)
    requires Inv(s) && Own(s, false) && Covered(s, excused)
    ensures OnEnter(s, w, granted) == s || Accounts(s, OnEnter(s, w, granted), w, excused)
  {
    hide Own, Inv, Covered, Accounts, Fair, Goto, Stop, Lost, FailJob, MoveOn, MoveAndStop, CanMove, L.Allowed, PcCovered, Done, NextOrdinal, NewestActive, Select;
    if OnEnter(s, w, granted) != s {
      var kind := s.processes[w].pc.kind;
      FairIdle(s, excused);
      AccountsFail(s, s, w, excused);
      FairPair(s, w, EntryPlan(s, kind), excused);
      match NewestActive(s.attempts, kind, |s.attempts|)
      case None =>
      case Some(i) =>
        FairPair(s, w, Sweeping(i), excused);
        FairPair(s, w, Handling(i), excused);
        FairPair(s, w, BeginReconcile(i), excused);
        FairPair(s, w, Polling(i), excused);
        CarefreeIsCovered(s, Polling(i), excused);
        AccountsMove(s, s, w, PhaseOf(kind).running, Polling(i), excused);
    }
  }

  /** What a settling loop closes is gone, or excused. */
  lemma ClosedAreDone(s: World, e: Event, t: World, w: nat, excused: set<nat>)
    requires Own(s, false) && w in s.processes && (s.processes[w].pc.Settling? || s.processes[w].pc.SettleDelete?)
    requires e.SettleStep? || e.SettleDeleted? || e.SettleCommit?
    requires Actor(e) == Some(w) && t != s && t.sessions == s.sessions && |t.attempts| == |s.attempts| && Excuses(s, e, t, excused)
    requires forall i <- s.processes[w].pc.closed | i < |s.attempts| :: t.attempts[i].key == s.attempts[i].key && !Owning(t.attempts[i])
    ensures forall i <- s.processes[w].pc.closed | i < |s.attempts| :: Done(s, i, excused)
  {
    hide Own, RemoteOk, RowsTraced, SingleOwner, Owning, TooLateToAttach;
    OwnData(s);
    InserterHolds(s, w, false);
    AtProcess(s, w, false);
    forall i <- s.processes[w].pc.closed | i < |s.attempts| ensures Done(s, i, excused) {
      QuietSame(s, t, i);
      if s.attempts[i].session.Some? && IsGone(s.sessions, s.attempts[i].session.value) {
        NamedIsDone(s, i, excused);
      } else {
        assert GivenUp(s, s.attempts[i]);
        if !RowQuiet(s, i) { assert LetsGo(s, e, t, i); }
      }
    }
  }

  /** A failure either rolls everything back, or commits the rows that are not live as they are. */
  lemma FailureCommits(s: World, changed: World, w: nat)
    requires w in s.processes && OnlyRows(s, changed)
    ensures
      var t := FailJob(s, changed, w);
      && t.sessions == s.sessions && |t.attempts| == |s.attempts|
      && (t == Lost(s, w) || forall i | 0 <= i < |s.attempts| && !Active(changed.attempts[i]) :: t.attempts[i] == changed.attempts[i])
  {
    hide L.Allowed, Lost;
  }

  lemma AccountSettleFail(s: World, e: Event, w: nat, excused: set<nat>)
    requires Own(s, false) && w in s.processes && (s.processes[w].pc.Settling? || s.processes[w].pc.SettleDelete?)
    requires (e.SettleStep? || e.SettleDeleted?) && Actor(e) == Some(w)
    requires Excuses(s, e, FailJob(s, CancelledRows(s, s.processes[w].pc.closed), w), excused)
    ensures Accounts(s, FailJob(s, CancelledRows(s, s.processes[w].pc.closed), w), w, excused)
  {
    hide Own, Accounts, Fair, Done, FailJob, Lost, Excuses, Rewrite;
    var closed := s.processes[w].pc.closed;
    var changed := CancelledRows(s, closed);
    var t := FailJob(s, changed, w);
    FailureCommits(s, changed, w);
    FairIdle(s, excused);
    AccountsEnd(s, s, w, excused);
    if t != Lost(s, w) {
      assert w in s.processes && t != s by { FailureMoves(s, changed, w); }
      ClosedAreDone(s, e, t, w, excused);
      FairRewrite(s, closed, CancelledRow, excused);
      AccountsFail(s, changed, w, excused);
    }
  }

  lemma FailureMoves(s: World, changed: World, w: nat)
    requires w in s.processes && OnlyRows(s, changed) && s.processes[w].pc != Abandoning
    ensures FailJob(s, changed, w) != s
  {
    hide FailJob;
    var t := FailJob(s, changed, w);
    assert t.processes != s.processes;
  }

  lemma AccountSettleStep(s: World, w: nat, got: GetAnswer, excused: set<nat>)
    requires Inv(s) && Own(s, false) && Covered(s, excused)
    requires Excuses(s, SettleStep(w, got), OnSettleStep(s, w, got), excused)
    ensures OnSettleStep(s, w, got) == s || Accounts(s, OnSettleStep(s, w, got), w, excused)
  {
    hide Own, Inv, Covered, Accounts, Fair, Goto, Stop, Lost, FailJob, MoveOn, MoveAndStop, CanMove, L.Allowed, PcCovered, Done, OnSettleStep, Rewrite, Excuses;
    if OnSettleStep(s, w, got) != s {
      SettleStepEnds(s, w, got);
      var Settling(kind, n, todo, closed) := s.processes[w].pc;
      if OnSettleStep(s, w, got) == FailJob(s, CancelledRows(s, closed), w) {
        AccountSettleFail(s, SettleStep(w, got), w, excused);
      } else {
        FairPair(s, w, Settling(kind, n, todo[1..], closed + {todo[0]}), excused);
        FairPair(s, w, Settling(kind, n, todo[1..], closed), excused);
        FairPair(s, w, SettleDelete(kind, n, todo, closed), excused);
      }
    }
  }

  lemma SettleStepEnds(s: World, w: nat, got: GetAnswer)
    requires OnSettleStep(s, w, got) != s
    ensures w in s.processes && s.processes[w].pc.Settling? && s.processes[w].pc.todo != []
    ensures
      var Settling(kind, n, todo, closed) := s.processes[w].pc;
      OnSettleStep(s, w, got) in {
        FailJob(s, CancelledRows(s, closed), w), Goto(s, w, Settling(kind, n, todo[1..], closed + {todo[0]})),
        Goto(s, w, Settling(kind, n, todo[1..], closed)), Goto(s, w, SettleDelete(kind, n, todo, closed))}
  {
    hide FailJob, TruthfulGet, CancelledRows, Goto;
  }

  lemma AccountSettleDeleted(s: World, w: nat, answer: DeleteAnswer, excused: set<nat>)
    requires Inv(s) && Own(s, false) && Covered(s, excused)
    requires Excuses(s, SettleDeleted(w, answer), OnSettleDeleted(s, w, answer), excused)
    ensures OnSettleDeleted(s, w, answer) == s || Accounts(s, OnSettleDeleted(s, w, answer), w, excused)
  {
    hide Own, Inv, Covered, Accounts, Fair, Goto, Stop, Lost, FailJob, MoveOn, MoveAndStop, CanMove, L.Allowed, PcCovered, Done, CancelledRows, AfterDelete, Excuses;
    if OnSettleDeleted(s, w, answer) != s {
      var SettleDelete(kind, n, todo, closed) := s.processes[w].pc;
      if answer.DeleteError? {
        AccountSettleFail(s, SettleDeleted(w, answer), w, excused);
      } else {
        var m := AfterDelete(s, s.attempts[todo[0]].session.value, answer);
        FairAnswer(s, s.attempts[todo[0]].session.value, answer, excused);
        CarefreeIsCovered(m, Settling(kind, n, todo[1..], closed + {todo[0]}), excused);
        AccountsGoto(s, m, w, Settling(kind, n, todo[1..], closed + {todo[0]}), excused);
      }
    }
  }

  lemma FairAnswer(s: World, sid: nat, answer: DeleteAnswer, excused: set<nat>)
    ensures
      var m := AfterDelete(s, sid, answer);
      Fair(s, m, excused) && m.processes == s.processes && m.attempts == s.attempts
  {
    hide Fair;
    FairIdle(s, excused);
    FairDelete(s, {sid}, excused);
  }

  lemma AccountSettleCommit(s: World, w: nat, excused: set<nat>)
    requires Inv(s) && Own(s, false) && Covered(s, excused)
    requires Excuses(s, SettleCommit(w), OnSettleCommit(s, w), excused)
    ensures OnSettleCommit(s, w) == s || Accounts(s, OnSettleCommit(s, w), w, excused)
  {
    hide Own, Inv, Covered, Accounts, Fair, Goto, Stop, Lost, FailJob, MoveOn, MoveAndStop, CanMove, L.Allowed, PcCovered, Done, Excuses, Rewrite;
    if OnSettleCommit(s, w) != s {
      var pc := s.processes[w].pc;
      CommitCancels(s, w);
      ClosedAreDone(s, SettleCommit(w), OnSettleCommit(s, w), w, excused);
      FairRewrite(s, pc.closed, CancelledRow, excused);
      CarefreeIsCovered(CancelledRows(s, pc.closed), Inserting(pc.kind, pc.ordinal), excused);
      AccountsGoto(s, CancelledRows(s, pc.closed), w, Inserting(pc.kind, pc.ordinal), excused);
    }
  }

  lemma CommitCancels(s: World, w: nat)
    requires OnSettleCommit(s, w) != s
    ensures
      var t := OnSettleCommit(s, w);
      && w in s.processes && s.processes[w].pc.Settling? && t.sessions == s.sessions && |t.attempts| == |s.attempts|
      && forall i <- s.processes[w].pc.closed | i < |s.attempts| :: t.attempts[i] == CancelledRow(s.attempts[i])
  {}

  lemma AccountBuild(s: World, w: nat, ok: bool, excused: set<nat>)
    requires Inv(s) && Own(s, false) && Covered(s, excused)
    ensures OnBuild(s, w, ok) == s || Accounts(s, OnBuild(s, w, ok), w, excused)
  {
    hide Own, Inv, Covered, Accounts, Fair, Goto, Stop, Lost, FailJob, MoveOn, MoveAndStop, CanMove, L.Allowed, PcCovered, Done, SetRow;
    if OnBuild(s, w, ok) != s {
      var i := s.processes[w].pc.attempt;
      var a := s.attempts[i];
      CarefreeIsCovered(s, Posting(i), excused);
      if ok {
        AccountsRow(s, w, i, a.(sent := true), s.state, Posting(i), excused);
      } else {
        BuilderIsUnsent(s, w);
        UnsentIsDone(s, i, excused);
        AccountsRow(s, w, i, a.(createState := NotSent, status := Failed, finished := true), s.state, Posting(i), excused);
      }
    }
  }

  lemma BuilderIsUnsent(s: World, w: nat)
    requires Inv(s) && w in s.processes && s.processes[w].pc.Building? && s.processes[w].pc.attempt < |s.attempts|
    ensures !s.attempts[s.processes[w].pc.attempt].sent
  {
    hide RowsOk, PostsOk, PlansOk;
    assert CreatorOk(s, s.processes[w]);
  }

  lemma AccountAttach(s: World, w: nat, excused: set<nat>)
    requires Inv(s) && Own(s, false) && Covered(s, excused)
    requires Excuses(s, Attach(w), OnAttach(s, w), excused)
    ensures OnAttach(s, w) == s || Accounts(s, OnAttach(s, w), w, excused)
  {
    hide Own, Inv, Covered, Accounts, Fair, Goto, Stop, Lost, FailJob, MoveOn, MoveAndStop, CanMove, L.Allowed, PcCovered, Done, OnAttach, SetRow, Excuses, TooLateToAttach;
    if OnAttach(s, w) != s {
      AttachEnds(s, w);
      var Attaching(i, sid, created) := s.processes[w].pc;
      var a := s.attempts[i].(createState := created, session := Some(sid));
      var b := a.(status := Running, reason := NoReason);
      var running := PhaseOf(a.kind).running;
      if CanMove(s, w, running) {
        FairRow(s, i, b, excused);
        CarefreeIsCovered(SetRow(s, i, b), Polling(i), excused);
        AccountsMoved(s, SetRow(s, i, b), w, running, Polling(i), excused);
      } else {
        OrphanIsExcused(s, w, excused);
        CarefreeIsCovered(s, Orphaned(sid), excused);
        AccountsRow(s, w, i, SessionModel.Closed(a, Cancelled), s.state, Orphaned(sid), excused);
      }
    }
  }

  lemma AttachEnds(s: World, w: nat)
    requires OnAttach(s, w) != s
    ensures w in s.processes && s.processes[w].pc.Attaching? && s.processes[w].pc.attempt < |s.attempts|
    ensures
      var Attaching(i, sid, created) := s.processes[w].pc;
      var a := s.attempts[i].(createState := created, session := Some(sid));
      var running := PhaseOf(a.kind).running;
      OnAttach(s, w) ==
      if CanMove(s, w, running) then Goto(Moved(SetRow(s, i, a.(status := Running, reason := NoReason)), w, running), w, Polling(i))
      else Goto(SetRow(s, i, SessionModel.Closed(a, Cancelled)), w, Orphaned(sid))
  {
    hide L.Allowed;
  }

  lemma OrphanIsExcused(s: World, w: nat, excused: set<nat>)
    requires w in s.processes && s.processes[w].pc.Attaching? && s.processes[w].pc.attempt < |s.attempts|
    requires OnAttach(s, w) != s && Excuses(s, Attach(w), OnAttach(s, w), excused)
    requires !CanMove(s, w, PhaseOf(s.attempts[s.processes[w].pc.attempt].kind).running)
    ensures Done(s, s.processes[w].pc.attempt, excused)
  {
    hide CanMove, RowQuiet, OnAttach;
    var i, t := s.processes[w].pc.attempt, OnAttach(s, w);
    AttachEnds(s, w);
    QuietSame(s, t, i);
    if !RowQuiet(s, i) { assert LetsGo(s, Attach(w), t, i); }
  }

  lemma AccountDeleteOrphan(s: World, w: nat, answer: DeleteAnswer, excused: set<nat>)
    ensures OnDeleteOrphan(s, w, answer) == s || Accounts(s, OnDeleteOrphan(s, w, answer), w, excused)
  {
    hide Accounts, Fair, Lost, AfterDelete;
    if OnDeleteOrphan(s, w, answer) != s {
      FairAnswer(s, s.processes[w].pc.sid, answer, excused);
      AccountsEnd(s, AfterDelete(s, s.processes[w].pc.sid, answer), w, excused);
    }
  }

  lemma AccountRefusal(s: World, w: nat, excused: set<nat>)
    requires Inv(s) && Own(s, false) && Covered(s, excused)
    ensures OnRecordRefusal(s, w) == s || Accounts(s, OnRecordRefusal(s, w), w, excused)
  {
    hide Own, Inv, Covered, Accounts, Fair, Goto, Stop, Lost, FailJob, MoveOn, MoveAndStop, CanMove, L.Allowed, PcCovered, Done, SetRow;
    if OnRecordRefusal(s, w) != s {
      var i := s.processes[w].pc.attempt;
      AtPoint(s, w, excused);
      assert Done(s, i, excused) by { RefusedIsDone(s, s.processes[w].pc, excused); }
      CarefreeIsCovered(s, Abandoning, excused);
      AccountsRow(s, w, i, SessionModel.Closed(s.attempts[i], Failed).(createState := ApiError), s.state, Abandoning, excused);
    }
  }

  /** The row of a point that is about to let go of it is done. */
  lemma RefusedIsDone(s: World, pc: Pc, excused: set<nat>)
    requires PcCovered(s, pc, excused)
    ensures pc.Refused? || pc.SessionLost? || pc.Finishing? || pc.Closing? ==> Done(s, pc.attempt, excused)
    ensures pc.Settled? && pc.disposition != S.WaitingForHuman ==> Done(s, pc.attempt, excused)
  {
    hide Done;
  }

  lemma AccountUnknown(s: World, w: nat, excused: set<nat>)
    requires Inv(s) && Own(s, false) && Covered(s, excused)
    ensures OnRecordUnknown(s, w) == s || Accounts(s, OnRecordUnknown(s, w), w, excused)
  {
    hide Own, Inv, Covered, Accounts, Fair, Goto, Stop, Lost, FailJob, MoveOn, MoveAndStop, CanMove, L.Allowed, PcCovered, Done, SetRow;
    if OnRecordUnknown(s, w) != s {
      var i := s.processes[w].pc.attempt;
      var b := s.attempts[i].(createState := Uncertain, status := Reconciling, reason := OtherReason);
      CarefreeIsCovered(s, BeginReconcile(i), excused);
      AccountsRow(s, w, i, b, PhaseOf(b.kind).reconciling, BeginReconcile(i), excused);
    }
  }

  lemma AccountStartReconcile(s: World, w: nat, excused: set<nat>)
    requires Inv(s) && Own(s, false) && Covered(s, excused)
    ensures OnStartReconcile(s, w) == s || Accounts(s, OnStartReconcile(s, w), w, excused)
  {
    hide Own, Inv, Covered, Accounts, Fair, Goto, Stop, Lost, FailJob, MoveOn, MoveAndStop, CanMove, L.Allowed, PcCovered, Done, SetRow;
    if OnStartReconcile(s, w) != s {
      var i := s.processes[w].pc.attempt;
      var a := s.attempts[i].(status := Reconciling);
      var marked := if a.createState == CreateState.Pending then a.(createState := Uncertain, reason := OtherReason) else a;
      CarefreeIsCovered(s, Searching(i), excused);
      AccountsRow(s, w, i, marked, PhaseOf(a.kind).reconciling, Searching(i), excused);
    }
  }

  lemma AccountSearch(s: World, w: nat, found: SearchAnswer, excused: set<nat>)
    requires Inv(s) && Own(s, false) && Covered(s, excused)
    ensures OnSearch(s, w, found) == s || Accounts(s, OnSearch(s, w, found), w, excused)
  {
    hide Own, Inv, Covered, Accounts, Fair, Goto, Stop, Lost, FailJob, MoveOn, MoveAndStop, CanMove, L.Allowed, PcCovered, Done;
    if OnSearch(s, w, found) != s {
      var i := s.processes[w].pc.attempt;
      match found
      case OneMatch(sid) => FairPair(s, w, Attaching(i, sid, Reconciled), excused);
      case NoSingleMatch => FairPair(s, w, Unmatched(i), excused);
    }
  }

  lemma AccountUnmatched(s: World, w: nat, excused: set<nat>)
    requires Inv(s) && Own(s, false) && Covered(s, excused)
    ensures OnBlockUnmatched(s, w) == s || Accounts(s, OnBlockUnmatched(s, w), w, excused)
  {
    hide Own, Inv, Covered, Accounts, Fair, Goto, Stop, Lost, FailJob, MoveOn, MoveAndStop, CanMove, L.Allowed, PcCovered, Done, SetRow;
    if OnBlockUnmatched(s, w) != s {
      var i := s.processes[w].pc.attempt;
      var b := SessionModel.Closed(s.attempts[i], Blocked).(createState := Unresolved, reason := OtherReason);
      CarefreeIsCovered(s, Abandoning, excused);
      AccountsRow(s, w, i, b, PhaseOf(b.kind).humanBlocked, Abandoning, excused);
    }
  }

  lemma AccountPollCheck(s: World, w: nat, expired: bool, excused: set<nat>)
    ensures OnPollCheck(s, w, expired) == s || Accounts(s, OnPollCheck(s, w, expired), w, excused)
  {
    hide L.IsTerminationPending, Done;
  }

  lemma AccountPollAnswer(s: World, w: nat, got: GetAnswer, excused: set<nat>)
    requires Inv(s) && Own(s, false) && Covered(s, excused)
    ensures OnPollAnswer(s, w, got) == s || Accounts(s, OnPollAnswer(s, w, got), w, excused)
  {
    hide Own, Inv, Covered, Accounts, Fair, Goto, Stop, Lost, FailJob, MoveOn, MoveAndStop, CanMove, L.Allowed, PcCovered, Done, SetRow;
    if OnPollAnswer(s, w, got) != s {
      var i := s.processes[w].pc.attempt;
      var a := s.attempts[i];
      CarefreeIsCovered(s, Polling(i), excused);
      match got
      case GetError => AccountsRow(s, w, i, a.(status := Reconciling, reason := OtherReason), s.state, Polling(i), excused);
      case GetNotFound => GoneIsLost(s, w, i, excused);
      case Snapshot(d, _, output, _) =>
        AccountsRow(s, w, i, a.(status := Reconciling, reason := OtherReason), s.state, Polling(i), excused);
        AccountsRow(s, w, i, a.(status := Running, reason := NoReason), s.state, Polling(i), excused);
        if d != S.Unknown && d != S.Live {
          DecidedIsCovered(s, i, got, excused);
          AccountsRow(s, w, i, a.(status := Running, reason := NoReason), s.state, Settled(i, d, output), excused);
        }
    }
  }

  lemma GoneIsLost(s: World, w: nat, i: nat, excused: set<nat>)
    requires Own(s, false) && w in s.processes && KnowsSession(s, i, GetNotFound)
    ensures Done(s, i, excused) && Accounts(s, Goto(s, w, SessionLost(i)), w, excused) && Accounts(s, Goto(s, w, Closing(i)), w, excused)
  {
    hide Own, Accounts, Fair, Done, Goto;
    NamedIsDone(s, i, excused);
    FairIdle(s, excused);
    AccountsGoto(s, s, w, SessionLost(i), excused);
    AccountsGoto(s, s, w, Closing(i), excused);
  }

  /** A session that is read as decided, unless it waits for a human, does not work. */
  lemma DecidedIsCovered(s: World, i: nat, got: GetAnswer, excused: set<nat>)
    requires Own(s, false) && KnowsSession(s, i, got) && got.Snapshot? && got.disposition != S.Live && got.disposition != S.Unknown
    ensures PcCovered(s, Settled(i, got.disposition, got.output), excused)
    ensures got.disposition != S.WaitingForHuman || got.remoteTerminal ==> Done(s, i, excused)
  {
    hide Own, Done;
    if got.disposition != S.WaitingForHuman || got.remoteTerminal { NamedIsDone(s, i, excused); }
  }

  lemma AccountLost(s: World, w: nat, excused: set<nat>)
    requires Inv(s) && Own(s, false) && Covered(s, excused)
    ensures OnRecordLost(s, w) == s || Accounts(s, OnRecordLost(s, w), w, excused)
  {
    hide Own, Inv, Covered, Accounts, Fair, Goto, Stop, Lost, FailJob, MoveOn, MoveAndStop, CanMove, L.Allowed, PcCovered, Done, SetRow;
    if OnRecordLost(s, w) != s {
      var i := s.processes[w].pc.attempt;
      AtPoint(s, w, excused);
      RefusedIsDone(s, s.processes[w].pc, excused);
      CarefreeIsCovered(s, Abandoning, excused);
      AccountsRow(s, w, i, SessionModel.Closed(s.attempts[i], Failed), s.state, Abandoning, excused);
    }
  }

  lemma AccountOutcome(s: World, w: nat, excused: set<nat>)
    requires Inv(s) && Own(s, false) && Covered(s, excused)
    ensures OnSettleOutcome(s, w) == s || Accounts(s, OnSettleOutcome(s, w), w, excused)
  {
    hide Own, Inv, Covered, Accounts, Fair, Goto, Stop, Lost, FailJob, MoveOn, MoveAndStop, CanMove, L.Allowed, PcCovered, Done, SetRow;
    if OnSettleOutcome(s, w) != s {
      var Settled(i, d, output) := s.processes[w].pc;
      var a := s.attempts[i];
      AtPoint(s, w, excused);
      RefusedIsDone(s, s.processes[w].pc, excused);
      CarefreeIsCovered(s, Abandoning, excused);
      match d
      case Finished =>
        assert PcCovered(s, Finishing(i), excused) by { FinishingIsCovered(s, i, excused); }
        AccountsRow(s, w, i, a.(output := output, finished := true), s.state, Finishing(i), excused);
      case WaitingForHuman =>
        AccountsRow(s, w, i, SessionModel.Closed(a, Blocked), PhaseOf(a.kind).humanBlocked, Abandoning, excused);
      case _ =>
        AccountsRow(s, w, i, SessionModel.Closed(a, Failed), s.state, Abandoning, excused);
    }
  }

  lemma FinishingIsCovered(s: World, i: nat, excused: set<nat>)
    requires Done(s, i, excused)
    ensures PcCovered(s, Finishing(i), excused) && PcCovered(s, Closing(i), excused)
  {
    hide Done;
  }

  lemma AccountFinish(s: World, w: nat, valid: bool, excused: set<nat>)
    requires Inv(s) && Own(s, false) && Covered(s, excused)
    ensures OnFinish(s, w, valid) == s || Accounts(s, OnFinish(s, w, valid), w, excused)
  {
    hide Own, Inv, Covered, Accounts, Fair, Goto, Stop, Lost, FailJob, MoveOn, MoveAndStop, CanMove, L.Allowed, PcCovered, Done, SetRow, Moved;
    if OnFinish(s, w, valid) != s {
      var i := s.processes[w].pc.attempt;
      var a := s.attempts[i];
      AtPoint(s, w, excused);
      RefusedIsDone(s, s.processes[w].pc, excused);
      CarefreeIsCovered(s, Abandoning, excused);
      AccountsRow(s, w, i, a.(status := Succeeded), L.OutputValidating, Abandoning, excused);
      AccountsRow(s, w, i, a.(status := Failed, output := false), s.state, Abandoning, excused);
      FairRow(s, i, a.(status := Succeeded), excused);
      TriagedAccounts(s, SetRow(s, i, a.(status := Succeeded)), w, excused);
    }
  }

  lemma TriagedAccounts(s: World, changed: World, w: nat, excused: set<nat>)
    requires Fair(s, changed, excused) && w in s.processes && OnlyRows(s, changed)
    ensures Accounts(s, Stop(Moved(Moved(changed, w, L.Triaged), w, L.AwaitingRemediationApproval), w), w, excused)
  {
    hide SessionsAge, Owning;
  }

  lemma AccountTimeoutGet(s: World, w: nat, got: GetAnswer, excused: set<nat>)
    requires Inv(s) && Own(s, false) && Covered(s, excused)
    ensures OnTimeoutGet(s, w, got) == s || Accounts(s, OnTimeoutGet(s, w, got), w, excused)
  {
    hide Own, Inv, Covered, Accounts, Fair, Goto, Stop, Lost, FailJob, MoveOn, MoveAndStop, CanMove, L.Allowed, PcCovered, Done, SetRow;
    if OnTimeoutGet(s, w, got) != s {
      var i := s.processes[w].pc.attempt;
      FairPair(s, w, Deleting(i), excused);
      match got
      case GetError =>
      case GetNotFound => GoneIsLost(s, w, i, excused);
      case Snapshot(d, ended, output, _) =>
        if d == S.Finished || d == S.WaitingForHuman || d == S.Failed {
          DecidedIsCovered(s, i, got, excused);
          AccountsRow(s, w, i, s.attempts[i].(status := Running), s.state, Settled(i, d, output), excused);
        }
        if d == S.Failed || ended { EndedCloses(s, w, i, got, excused); }
    }
  }

  lemma EndedCloses(s: World, w: nat, i: nat, got: GetAnswer, excused: set<nat>)
    requires Own(s, false) && w in s.processes && KnowsSession(s, i, got) && got.Snapshot?
    requires got.disposition == S.Failed || got.remoteTerminal
    ensures Accounts(s, Goto(s, w, Closing(i)), w, excused)
  {
    hide Own, Accounts, Fair, Done, Goto;
    NamedIsDone(s, i, excused);
    FairIdle(s, excused);
    AccountsGoto(s, s, w, Closing(i), excused);
  }

  /** A DELETE that is answered other than by an error ends the session. */
  lemma DeletedIsDone(s: World, i: nat, answer: DeleteAnswer, excused: set<nat>)
    requires Own(s, false) && i < |s.attempts| && s.attempts[i].session.Some? && !answer.DeleteError?
    requires TruthfulDelete(s, s.attempts[i].session.value, answer)
    ensures Done(AfterDelete(s, s.attempts[i].session.value, answer), i, excused)
  {
    hide Own, RemoteOk;
    OwnData(s);
    QuietAfterDelete(s, AfterDelete(s, s.attempts[i].session.value, answer), i);
  }

  lemma AccountTimeoutDelete(s: World, w: nat, answer: DeleteAnswer, excused: set<nat>)
    requires Inv(s) && Own(s, false) && Covered(s, excused)
    ensures OnTimeoutDelete(s, w, answer) == s || Accounts(s, OnTimeoutDelete(s, w, answer), w, excused)
  {
    hide Own, Inv, Covered, Accounts, Fair, Goto, Stop, Lost, FailJob, MoveOn, MoveAndStop, CanMove, L.Allowed, PcCovered, Done, AfterDelete, TruthfulDelete;
    if OnTimeoutDelete(s, w, answer) != s {
      var i := s.processes[w].pc.attempt;
      var m := AfterDelete(s, s.attempts[i].session.value, answer);
      FairAnswer(s, s.attempts[i].session.value, answer, excused);
      if answer.DeleteError? {
        CarefreeIsCovered(m, DeleteFailed(i), excused);
        AccountsGoto(s, m, w, DeleteFailed(i), excused);
      } else {
        DeletedIsDone(s, i, answer, excused);
        FinishingIsCovered(m, i, excused);
        AccountsGoto(s, m, w, Closing(i), excused);
      }
    }
  }

  lemma AccountPark(s: World, w: nat, excused: set<nat>)
    requires Inv(s) && Own(s, false) && Covered(s, excused)
    ensures OnPark(s, w) == s || Accounts(s, OnPark(s, w), w, excused)
  {
    hide Own, Inv, Covered, Accounts, Fair, Goto, Stop, Lost, FailJob, MoveOn, MoveAndStop, CanMove, L.Allowed, PcCovered, Done, SetRow;
    if OnPark(s, w) != s {
      var i := s.processes[w].pc.attempt;
      var a := s.attempts[i];
      var keep := a.reason.CancelRequested? || a.reason.WorkerError?;
      CarefreeIsCovered(s, Abandoning, excused);
      AccountsRow(s, w, i, a.(status := TerminationPending, reason := if keep then a.reason else OtherReason),
                  PhaseOf(a.kind).terminationPending, Abandoning, excused);
    }
  }

  lemma FairSwept(s: World, sweep: SweepAnswer, excused: set<nat>)
    ensures
      var m := AfterSweep(s, sweep);
      Fair(s, m, excused) && m.processes == s.processes && m.attempts == s.attempts && m.state == s.state
  {
    hide Fair;
    FairDelete(s, if sweep.Swept? then sweep.matches else sweep.deleted, excused);
  }

  lemma AccountSweepTag(s: World, w: nat, sweep: SweepAnswer, excused: set<nat>)
    requires Inv(s) && Own(s, false) && Covered(s, excused)
    requires Excuses(s, SweepTag(w, sweep), OnSweepTag(s, w, sweep), excused)
    ensures OnSweepTag(s, w, sweep) == s || Accounts(s, OnSweepTag(s, w, sweep), w, excused)
  {
    hide Own, Inv, Covered, Accounts, Fair, Goto, Stop, Lost, FailJob, MoveOn, MoveAndStop, CanMove, L.Allowed, PcCovered, Done, AfterSweep, SetRow, Excuses, TruthfulSweep;
    if OnSweepTag(s, w, sweep) != s {
      var i := s.processes[w].pc.attempt;
      var m := AfterSweep(s, sweep);
      FairSwept(s, sweep, excused);
      if sweep.Swept? {
        SweptIsExcused(s, w, sweep, excused);
        FinishingIsCovered(m, i, excused);
        AccountsGoto(s, m, w, Closing(i), excused);
      } else {
        FairNote(s, m, i, excused);
        AccountsEnd(s, SetRow(m, i, s.attempts[i].(reason := OtherReason)), w, excused);
      }
    }
  }

  lemma FairNote(s: World, m: World, i: nat, excused: set<nat>)
    requires Fair(s, m, excused) && m.attempts == s.attempts && m.processes == s.processes && i < |s.attempts|
    ensures
      var t := SetRow(m, i, s.attempts[i].(reason := OtherReason));
      Fair(s, t, excused) && t.processes == s.processes
  {
    hide Done, SessionsAge;
  }

  lemma SweptIsExcused(s: World, w: nat, sweep: SweepAnswer, excused: set<nat>)
    requires OnSweepTag(s, w, sweep) != s && sweep.Swept? && Excuses(s, SweepTag(w, sweep), OnSweepTag(s, w, sweep), excused)
    ensures w in s.processes && s.processes[w].pc.Sweeping? && s.processes[w].pc.attempt < |s.attempts|
    ensures Done(AfterSweep(s, sweep), s.processes[w].pc.attempt, excused)
  {
    hide RowQuiet, TruthfulSweep;
    var i, t, m := s.processes[w].pc.attempt, OnSweepTag(s, w, sweep), AfterSweep(s, sweep);
    QuietSame(m, t, i);
    if !RowQuiet(m, i) { assert LetsGo(s, SweepTag(w, sweep), t, i); }
  }

  lemma AccountCloseOut(s: World, w: nat, expired: bool, excused: set<nat>)
    requires Inv(s) && Own(s, false) && Covered(s, excused)
    ensures OnCloseOut(s, w, expired) == s || Accounts(s, OnCloseOut(s, w, expired), w, excused)
  {
    hide Own, Inv, Covered, Accounts, Fair, Goto, Stop, Lost, FailJob, MoveOn, MoveAndStop, CanMove, L.Allowed, PcCovered, Done, SetRow;
    if OnCloseOut(s, w, expired) != s {
      var i := s.processes[w].pc.attempt;
      var a := s.attempts[i];
      var phase := PhaseOf(a.kind);
      AtPoint(s, w, excused);
      RefusedIsDone(s, s.processes[w].pc, excused);
      CarefreeIsCovered(s, Abandoning, excused);
      AccountsRow(s, w, i, SessionModel.Closed(a, Cancelled).(reason := NoReason), phase.cancelled, Abandoning, excused);
      AccountsRow(s, w, i, SessionModel.Closed(a, Failed).(reason := NoReason), phase.failed, Abandoning, excused);
      AccountsRow(s, w, i, SessionModel.Closed(a, TimedOut).(reason := NoReason), phase.timedOut, Abandoning, excused);
    }
  }

  lemma EndsOne(s: World, m: World, w: nat, done: bool, excused: set<nat>)
    requires w in s.processes && s.processes[w].pc.Terminating? && s.processes[w].pc.todo != [] && PcCovered(s, s.processes[w].pc, excused)
    requires Fair(s, m, excused) && m.processes == s.processes && m.attempts == s.attempts
    requires done ==> Done(m, s.processes[w].pc.todo[0], excused)
    ensures
      var Terminating(todo, closed, parked) := s.processes[w].pc;
      Accounts(s, Goto(m, w, if done then Terminating(todo[1..], closed + {todo[0]}, parked)
                             else Terminating(todo[1..], closed, parked + {todo[0]})), w, excused)
  {
    hide Accounts, Goto, Done, SessionsAge;
    var Terminating(todo, closed, parked) := s.processes[w].pc;
    assert PcCovered(m, s.processes[w].pc, excused) by { PointStays(s, m, s.processes[w].pc, excused); }
    AccountsGoto(s, m, w, if done then Terminating(todo[1..], closed + {todo[0]}, parked)
                          else Terminating(todo[1..], closed, parked + {todo[0]}), excused);
  }

  lemma OneSweptIsExcused(s: World, w: nat, answer: DeleteAnswer, sweep: SweepAnswer, excused: set<nat>)
    requires w in s.processes && s.processes[w].pc.Terminating? && s.processes[w].pc.todo != [] && s.processes[w].pc.todo[0] < |s.attempts|
    requires
      var i := s.processes[w].pc.todo[0];
      s.attempts[i].session.None? && s.attempts[i].sent && sweep.Swept? && TruthfulSweep(s, s.attempts[i].key, sweep)
    requires Excuses(s, TerminateOne(w, answer, sweep), OnTerminateOne(s, w, answer, sweep), excused)
    ensures Done(AfterSweep(s, sweep), s.processes[w].pc.todo[0], excused)
  {
    hide RowQuiet, TruthfulSweep, AfterSweep;
    var i, t, m := s.processes[w].pc.todo[0], OnTerminateOne(s, w, answer, sweep), AfterSweep(s, sweep);
    assert m.attempts == s.attempts && m.processes == s.processes by { SweepLeavesRows(s, sweep); }
    assert |t.processes[w].pc.todo| < |s.processes[w].pc.todo|;
    QuietSame(m, t, i);
    if !RowQuiet(m, i) { assert LetsGo(s, TerminateOne(w, answer, sweep), t, i); }
  }

  lemma SweepLeavesRows(s: World, sweep: SweepAnswer)
    ensures AfterSweep(s, sweep).attempts == s.attempts && AfterSweep(s, sweep).processes == s.processes
  {}

  lemma AccountTerminateOne(s: World, w: nat, answer: DeleteAnswer, sweep: SweepAnswer, excused: set<nat>)
    requires Inv(s) && Own(s, false) && Covered(s, excused)
    requires Excuses(s, TerminateOne(w, answer, sweep), OnTerminateOne(s, w, answer, sweep), excused)
    ensures OnTerminateOne(s, w, answer, sweep) == s || Accounts(s, OnTerminateOne(s, w, answer, sweep), w, excused)
  {
    hide Own, Inv, Covered, Accounts, Fair, Goto, Stop, Lost, FailJob, MoveOn, MoveAndStop, CanMove, L.Allowed, PcCovered, Done, AfterSweep, AfterDelete, Excuses, TruthfulSweep, TruthfulDelete;
    if OnTerminateOne(s, w, answer, sweep) != s {
      var i := s.processes[w].pc.todo[0];
      AtPoint(s, w, excused);
      FairIdle(s, excused);
      if s.attempts[i].session.Some? {
        FairAnswer(s, s.attempts[i].session.value, answer, excused);
        if answer.DeleteError? {
          EndsOne(s, s, w, false, excused);
        } else {
          DeletedIsDone(s, i, answer, excused);
          EndsOne(s, AfterDelete(s, s.attempts[i].session.value, answer), w, true, excused);
        }
      } else if s.attempts[i].sent {
        FairSwept(s, sweep, excused);
        if sweep.Swept? { OneSweptIsExcused(s, w, answer, sweep, excused); }
        EndsOne(s, AfterSweep(s, sweep), w, sweep.Swept?, excused);
      } else {
        UnsentIsDone(s, i, excused);
        EndsOne(s, s, w, true, excused);
      }
    }
  }

  lemma AccountTerminateCommit(s: World, w: nat, excused: set<nat>)
    requires Inv(s) && Own(s, false) && Covered(s, excused)
    ensures OnTerminateCommit(s, w) == s || Accounts(s, OnTerminateCommit(s, w), w, excused)
  {
    hide Own, Inv, Covered, Accounts, Fair, Goto, Stop, Lost, FailJob, MoveOn, MoveAndStop, CanMove, L.Allowed, PcCovered, Done, Rewrite;
    if OnTerminateCommit(s, w) != s {
      var Terminating(_, closed, parked) := s.processes[w].pc;
      AtPoint(s, w, excused);
      TerminationIsFair(s, closed, parked, excused);
      var ended := s.(attempts := Rewrite(Rewrite(s.attempts, parked, CancelParked), closed, TerminationConfirmed));
      AccountsEnd(s, ended, w, excused);
      CarefreeIsCovered(ended, Abandoning, excused);
      AccountsMove(s, ended, w, L.PhaseForState(s.processes[w].mem).cancelled, Abandoning, excused);
    }
  }

  lemma TerminationIsFair(s: World, closed: set<nat>, parked: set<nat>, excused: set<nat>)
    requires PcCovered(s, Terminating([], closed, parked), excused)
    ensures
      var ended := s.(attempts := Rewrite(Rewrite(s.attempts, parked, CancelParked), closed, TerminationConfirmed));
      Fair(s, ended, excused) && OnlyRows(s, ended)
  {
    var ended := s.(attempts := Rewrite(Rewrite(s.attempts, parked, CancelParked), closed, TerminationConfirmed));
    hide Done;
    forall i | 0 <= i < |s.attempts| && Owning(s.attempts[i]) && !Owning(ended.attempts[i]) ensures Done(ended, i, excused) {
      DoneStays(s, ended, i, excused);
    }
  }

  lemma AccountReread(s: World, w: nat, got: GetAnswer, excused: set<nat>)
    requires Inv(s) && Own(s, false) && Covered(s, excused)
    requires Excuses(s, Reread(w, got), OnReread(s, w, got), excused)
    ensures OnReread(s, w, got) == s || Accounts(s, OnReread(s, w, got), w, excused)
  {
    hide Own, Inv, Covered, Accounts, Fair, Goto, Stop, Lost, FailJob, MoveOn, MoveAndStop, CanMove, L.Allowed, PcCovered, Done, SetRow, Excuses, OnReread, TruthfulGet;
    RereadEnds(s, w, got);
    if OnReread(s, w, got) != s {
      var Rereading(candidates, todo, found) := s.processes[w].pc;
      var i := todo[0];
      AtPoint(s, w, excused);
      assert PcCovered(s, Rereading(candidates, todo[1..], found), excused) by { ReadingIsCovered(s, candidates, todo, found, excused); }
      var on := Rereading(candidates, todo[1..], found);
      match got
      case GetError => AccountsRow(s, w, i, s.attempts[i].(reason := OtherReason), s.state, on, excused);
      case GetNotFound => AccountsRow(s, w, i, s.attempts[i].(reason := NoOutput(true)), s.state, on, excused);
      case Snapshot(_, _, output, valid) =>
        AccountsRow(s, w, i, s.attempts[i].(reason := NoOutput(false)), s.state, on, excused);
        if output { FoundIsExcused(s, w, got, excused); }
    }
  }

  lemma RereadEnds(s: World, w: nat, got: GetAnswer)
    ensures
      var t := OnReread(s, w, got);
      t == s ||
      (w in s.processes && s.processes[w].pc.Rereading? && s.processes[w].pc.todo != [] && s.processes[w].pc.todo[0] < |s.attempts| &&
       var Rereading(candidates, todo, found) := s.processes[w].pc;
       var i := todo[0];
       var on := Rereading(candidates, todo[1..], found);
       t == match got
            case GetError => Goto(SetRow(s, i, s.attempts[i].(reason := OtherReason)), w, on)
            case GetNotFound => Goto(SetRow(s, i, s.attempts[i].(reason := NoOutput(true))), w, on)
            case Snapshot(_, _, output, valid) =>
              if output then Goto(s, w, Rereading(candidates, todo[1..], found + [(i, valid)]))
              else Goto(SetRow(s, i, s.attempts[i].(reason := NoOutput(false))), w, on))
  {
    hide TruthfulGet, Goto, SetRow;
  }

  lemma ReadingIsCovered(s: World, candidates: seq<nat>, todo: seq<nat>, found: seq<(nat, bool)>, excused: set<nat>)
    requires PcCovered(s, Rereading(candidates, todo, found), excused) && todo != []
    ensures PcCovered(s, Rereading(candidates, todo[1..], found), excused)
    ensures forall valid :: Done(s, todo[0], excused) ==> PcCovered(s, Rereading(candidates, todo[1..], found + [(todo[0], valid)]), excused)
  {
    hide Done;
  }

  lemma FoundIsExcused(s: World, w: nat, got: GetAnswer, excused: set<nat>)
    requires OnReread(s, w, got) != s && got.Snapshot? && got.output && w in s.processes && PcCovered(s, s.processes[w].pc, excused)
    requires Excuses(s, Reread(w, got), OnReread(s, w, got), excused)
    ensures Accounts(s, OnReread(s, w, got), w, excused)
  {
    hide Accounts, Fair, PcCovered, RowQuiet, OnReread, TruthfulGet;
    RereadEnds(s, w, got);
    var Rereading(candidates, todo, found) := s.processes[w].pc;
    var i, t := todo[0], OnReread(s, w, got);
    QuietSame(s, t, i);
    if !RowQuiet(s, i) { assert LetsGo(s, Reread(w, got), t, i); }
    ReadingIsCovered(s, candidates, todo, found, excused);
    FairIdle(s, excused);
    AccountsGoto(s, s, w, Rereading(candidates, todo[1..], found + [(i, got.valid)]), excused);
  }

  /** What the re-reading process knows of its candidates while the case is blocked. */
  lemma AtCandidates(s: World, w: nat)
    requires Own(s, false) && w in s.processes && s.processes[w].pc.Rereading? && s.processes[w].pc.todo == [] && s.processes[w].pc.found != []
    ensures s.processes[w].mem == L.HumanBlocked
    ensures s.state == L.HumanBlocked ==> RereadingOk(s, s.processes[w].pc.candidates, [], s.processes[w].pc.found)
  {
    hide Own, RereadingOk, RowsTraced, SingleOwner, RemoteOk, RemediationOk, Framed;
    if Holder(s.processes[w]) { AtReading(s, w, false); } else { AtRequest(s, w, false); }
  }

  lemma OneRetained(s: World, i: nat, j: nat)
    requires SingleOwner(s) && i < |s.attempts| && j < |s.attempts| && Retained(s.attempts[i]) && Retained(s.attempts[j])
    ensures j == i
  {}

  /** The one retained session is ingested, and no other row is let go of. */
  lemma IngestIsFair(s: World, candidates: seq<nat>, found: seq<(nat, bool)>, excused: set<nat>)
    requires SingleOwner(s) && RereadingOk(s, candidates, [], found) && found != []
    ensures
      var i := Chosen(found);
      var others := set j <- candidates | j != i;
      && i < |s.attempts|
      && var m := SetRow(s.(attempts := Rewrite(s.attempts, others, Superseded)), i, s.attempts[i].(status := Running, reason := NoReason));
         Fair(s, m, excused) && OnlyRows(s, m)
  {
    ReadingChoice(s, candidates, found);
    var i := Chosen(found);
    var others := set j <- candidates | j != i;
    forall j <- candidates ensures j == i { OneRetained(s, i, j); }
    assert others == {};
    var m := SetRow(s.(attempts := Rewrite(s.attempts, others, Superseded)), i, s.attempts[i].(status := Running, reason := NoReason));
    hide Done, RereadingOk, SingleOwner, Chosen;
    assert Rewrite(s.attempts, others, Superseded) == s.attempts;
  }

  lemma AccountIngest(s: World, w: nat, excused: set<nat>)
    requires Inv(s) && Own(s, false) && Covered(s, excused)
    ensures OnIngest(s, w) == s || Accounts(s, OnIngest(s, w), w, excused)
  {
    hide Own, Inv, Covered, Accounts, Fair, Goto, Stop, Lost, FailJob, MoveOn, MoveAndStop, CanMove, L.Allowed, PcCovered, Done, Rewrite, SetRow, RereadingOk, SingleOwner, RowsTraced, RemoteOk, Chosen;
    if OnIngest(s, w) != s {
      FairIdle(s, excused);
      AccountsEnd(s, s, w, excused);
      var Rereading(candidates, _, found) := s.processes[w].pc;
      if found != [] {
        AtCandidates(s, w);
        AtPoint(s, w, excused);
        if s.state == L.HumanBlocked {
          OwnData(s);
          IngestIsFair(s, candidates, found, excused);
          var i := Chosen(found);
          var others := set j <- candidates | j != i;
          var m := SetRow(s.(attempts := Rewrite(s.attempts, others, Superseded)), i, s.attempts[i].(status := Running, reason := NoReason));
          assert PcCovered(m, Settled(i, S.Finished, true), excused) by { ChosenIsCovered(s, m, candidates, found, excused); }
          AccountsMove(s, m, w, L.Triaging, Settled(i, S.Finished, true), excused);
        } else {
          LateIngest(s, w);
        }
      }
    }
  }

  lemma ChosenIsCovered(s: World, m: World, candidates: seq<nat>, found: seq<(nat, bool)>, excused: set<nat>)
    requires PcCovered(s, Rereading(candidates, [], found), excused) && found != [] && Fair(s, m, excused) && m.sessions == s.sessions
    ensures PcCovered(m, Settled(Chosen(found), S.Finished, true), excused)
  {
    hide Done;
    var r := Chosen(found);
    var e :| e in found && e.0 == r;
    assert Done(s, e.0, excused);
    DoneIsRow(s, e.0, excused);
    DoneStays(s, m, e.0, excused);
  }

  lemma AccountAbandon(s: World, w: nat, excused: set<nat>)
    requires Inv(s) && Own(s, false) && Covered(s, excused)
    ensures OnAbandon(s, w) == s || Accounts(s, OnAbandon(s, w), w, excused)
  {
    hide Own, Inv, Covered, Accounts, Fair, Goto, Stop, Lost, FailJob, MoveOn, MoveAndStop, CanMove, L.Allowed, PcCovered, Done, Rewrite;
    if OnAbandon(s, w) != s {
      var unsent := set i | 0 <= i < |s.attempts| && Active(s.attempts[i]) && !s.attempts[i].sent;
      forall i <- unsent ensures Done(s, i, excused) { UnsentIsDone(s, i, excused); }
      FairRewrite(s, unsent, CancelledRow, excused);
      AccountsEnd(s, s.(attempts := Rewrite(s.attempts, unsent, CancelledRow)), w, excused);
    }
  }

  // ------------------------------------------------------------------ the steps of no list

  /** Rows and processes stay; the remote ages. */
  lemma AroundCovered(s: World, e: Event, excused: set<nat>)
    requires Covered(s, excused)
    requires e.RemoteStops? || e.RemoteVanishes? || e.OperatorCancel? || e.OperatorRetry? || e.ApprovalMove?
    ensures Covered(Effect(s, e), excused)
  {
    hide Covered, Effect, Done, PcCovered;
    AroundIsGentle(s, e);
    GentleCovers(s, Effect(s, e), excused);
  }

  ghost predicate OnlyReasons(s: World, t: World) {
    && |t.attempts| == |s.attempts| && SessionsAge(s.sessions, t.sessions) && t.processes == s.processes
    && forall i | 0 <= i < |s.attempts| :: t.attempts[i] == s.attempts[i].(reason := t.attempts[i].reason)
  }

  lemma AroundIsGentle(s: World, e: Event)
    requires e.RemoteStops? || e.RemoteVanishes? || e.OperatorCancel? || e.OperatorRetry? || e.ApprovalMove?
    ensures OnlyReasons(s, Effect(s, e))
  {
    hide L.Allowed, MayOwn, CapReached, UnackedRows;
  }

  lemma GentleCovers(s: World, t: World, excused: set<nat>)
    requires Covered(s, excused) && OnlyReasons(s, t)
    ensures Covered(t, excused)
  {
    hide Done, PcCovered, SessionsAge;
    forall i | 0 <= i < |t.attempts| ensures Owning(t.attempts[i]) || Done(t, i, excused) {
      if !Owning(s.attempts[i]) { DoneStays(s, t, i, excused); }
    }
    forall v <- t.processes ensures PcCovered(t, t.processes[v].pc, excused) { PointStays(s, t, s.processes[v].pc, excused); }
  }

  lemma ArrivalCovered(s: World, e: Event, excused: set<nat>)
    requires Covered(s, excused) && (e.ClaimCase? || e.OperatorReconcile? || e.Crash?)
    ensures Covered(Effect(s, e), excused)
  {
    hide Claimable, Done, RetainedRows;
    var t := Effect(s, e);
    forall i | 0 <= i < |t.attempts| ensures Owning(t.attempts[i]) || Done(t, i, excused) {
      if !Owning(s.attempts[i]) { DoneStays(s, t, i, excused); }
    }
    forall v <- t.processes ensures PcCovered(t, t.processes[v].pc, excused) {
      if v in s.processes && t.processes[v] == s.processes[v] { SamePoint(s, t, s.processes[v].pc, excused); }
    }
  }

  lemma SamePoint(s: World, t: World, pc: Pc, excused: set<nat>)
    requires PcCovered(s, pc, excused) && t.attempts == s.attempts && t.sessions == s.sessions
    ensures PcCovered(t, pc, excused)
  {
    assert forall i: nat :: Done(s, i, excused) == Done(t, i, excused);
  }

  /** A new row owns whatever comes of it. */
  lemma InsertCovered(s: World, w: nat, h: string, b: string, excused: set<nat>)
    requires Covered(s, excused)
    ensures Covered(OnInsert(s, w, h, b), excused)
  {
    hide KeyFor, Insertable, Done, PcCovered;
    var t := OnInsert(s, w, h, b);
    if t != s {
      forall i | 0 <= i < |t.attempts| ensures Owning(t.attempts[i]) || Done(t, i, excused) {
        if i < |s.attempts| && !Owning(s.attempts[i]) { DoneStays(s, t, i, excused); }
      }
      forall v <- t.processes ensures PcCovered(t, t.processes[v].pc, excused) {
        if v in s.processes && t.processes[v] == s.processes[v] { PointStays(s, t, s.processes[v].pc, excused); }
        else { CarefreeIsCovered(t, t.processes[v].pc, excused); }
      }
    }
  }

  /** The POST of row `j` is the first with its key, and nobody is about to let go of the row. */
  lemma SendPostCovered(s: World, w: nat, posted: PostAnswer, sid: nat, excused: set<nat>)
    requires Inv(s) && Own(s, false) && Covered(s, excused)
    ensures Covered(OnSendPost(s, w, posted, sid), excused)
  {
    hide Inv, Own, Covered, OnSendPost;
    var t := OnSendPost(s, w, posted, sid);
    if t != s {
      PostOutcome(s, w, posted, sid);
      CreatorFresh(s, w);
      OwnData(s);
      var j := s.processes[w].pc.attempt;
      PostIsFirst(s, j);
      InserterHolds(s, w, false);
      PosterOwns(s, w);
      PostedCovers(s, t, w, sid, excused);
    }
  }

  lemma PostOutcome(s: World, w: nat, posted: PostAnswer, sid: nat)
    requires OnSendPost(s, w, posted, sid) != s
    ensures w in s.processes && s.processes[w].pc.Posting? && s.processes[w].pc.attempt < |s.attempts|
    ensures
      var t := OnSendPost(s, w, posted, sid);
      var j := s.processes[w].pc.attempt;
      && t.attempts == s.attempts && sid !in s.sessions
      && (t.sessions == s.sessions || (t.sessions == s.sessions[sid := Session(s.attempts[j].key, Working)] && !posted.PostRefused?))
      && w in t.processes && t.processes == s.processes[w := t.processes[w]]
      && t.processes[w].pc == match posted
                              case PostAccepted => Attaching(j, sid, Created)
                              case PostRefused => Refused(j)
                              case PostLost(_) => OutcomeUnknown(j)
  {}

  lemma PosterOwns(s: World, w: nat)
    requires Own(s, false) && w in s.processes && Holder(s.processes[w]) && s.processes[w].pc.Posting?
    ensures s.processes[w].pc.attempt < |s.attempts| && Owning(s.attempts[s.processes[w].pc.attempt])
    ensures s.attempts[s.processes[w].pc.attempt].session.None?
  {
    hide Own, Mine, RowQuiet;
    AtProcess(s, w, false);
  }

  /** Nobody else is about to let go of a row without a session. */
  lemma OthersKnowOthers(s: World, p: Process, j: nat)
    requires OperatorOk(s, p) && j < |s.attempts| && s.attempts[j].session.None?
    ensures !Names(p.pc, j) && (p.pc.Rereading? || p.pc.Settled? || p.pc.Finishing?)
  {
    hide Owning;
  }

  lemma DoneUnless(s: World, t: World, i: nat, j: nat, excused: set<nat>)
    requires Inv(s) && Done(s, i, excused) && j < |s.attempts| && i != j && t.attempts == s.attempts
    requires forall x <- t.sessions :: (x in s.sessions && t.sessions[x] == s.sessions[x]) || t.sessions[x].tag == s.attempts[j].key
    ensures Done(t, i, excused)
  {
    hide PostsOk, CreatorsOk, PlansOk;
  }

  lemma PointUnless(s: World, t: World, pc: Pc, j: nat, excused: set<nat>)
    requires Inv(s) && PcCovered(s, pc, excused) && j < |s.attempts| && t.attempts == s.attempts
    requires !Names(pc, j) && (pc.Rereading? || pc.Settled? || pc.Finishing?)
    requires forall x <- t.sessions :: (x in s.sessions && t.sessions[x] == s.sessions[x]) || t.sessions[x].tag == s.attempts[j].key
    ensures PcCovered(t, pc, excused)
  {
    hide Inv, Done;
    forall i: nat | Done(s, i, excused) && i != j ensures Done(t, i, excused) { DoneUnless(s, t, i, j, excused); }
  }

  lemma PostedCovers(s: World, t: World, w: nat, sid: nat, excused: set<nat>)
    requires Inv(s) && Own(s, false) && Covered(s, excused) && w in s.processes && Holder(s.processes[w])
    requires s.processes[w].pc.Posting? && s.processes[w].pc.attempt < |s.attempts|
    requires
      var j := s.processes[w].pc.attempt;
      && t.attempts == s.attempts && sid !in s.sessions && Owning(s.attempts[j]) && s.attempts[j].session.None?
      && (forall x <- s.sessions :: s.sessions[x].tag != s.attempts[j].key)
      && w in t.processes && t.processes == s.processes[w := t.processes[w]]
      && ((t.sessions == s.sessions && t.processes[w].pc == Refused(j)) ||
          ((t.sessions == s.sessions || t.sessions == s.sessions[sid := Session(s.attempts[j].key, Working)]) && Carefree(t.processes[w].pc)))
    ensures Covered(t, excused)
  {
    hide Inv, Own, Done, PcCovered, Owning, OperatorOk, Names;
    var j := s.processes[w].pc.attempt;
    forall i | 0 <= i < |t.attempts| ensures Owning(t.attempts[i]) || Done(t, i, excused) {
      if !Owning(s.attempts[i]) { DoneUnless(s, t, i, j, excused); }
    }
    forall v <- t.processes ensures PcCovered(t, t.processes[v].pc, excused) {
      if v != w {
        OtherIsRequest(s, v, w);
        OthersKnowOthers(s, s.processes[v], j);
        AtPoint(s, v, excused);
        PointUnless(s, t, s.processes[v].pc, j, excused);
      } else if t.processes[w].pc == Refused(j) {
        NothingCreated(t, j, excused);
      } else {
        CarefreeIsCovered(t, t.processes[w].pc, excused);
      }
    }
  }

  lemma NothingCreated(t: World, j: nat, excused: set<nat>)
    requires j < |t.attempts| && forall x <- t.sessions :: t.sessions[x].tag != t.attempts[j].key
    ensures PcCovered(t, Refused(j), excused)
  {}

  // ------------------------------------------------------------------ every step

  lemma EarlyAccounts(s: World, e: Event, excused: set<nat>)
    requires Inv(s) && Own(s, false) && Covered(s, excused) && Excuses(s, e, Effect(s, e), excused) && Early(e) && WorkerOf(e).Some?
    ensures Effect(s, e) == s || Accounts(s, Effect(s, e), WorkerOf(e).value, excused)
  {
    hide Inv, Own, Covered, Accounts, Excuses;
    hide OnClaim, OnOperatorReconcile, OnRemoteStops, OnOperatorCancel, OnOperatorRetry,
      OnApprovalMove, OnEvaluate, OnAdmit, OnDispatch, OnPipelineMove, OnPipelineFail, OnEnter,
      OnSettleStep, OnSettleDeleted, OnSettleCommit, OnInsert, OnBuild, OnSendPost, OnAttach,
      OnDeleteOrphan, OnRecordRefusal, OnRecordUnknown, OnStartReconcile, OnSearch,
      OnBlockUnmatched, OnPollCheck, OnPollAnswer, OnRecordLost, OnSettleOutcome, OnFinish,
      OnTimeoutGet, OnTimeoutDelete, OnPark, OnSweepTag, OnCloseOut, OnTerminateOne,
      OnTerminateCommit, OnReread, OnIngest, OnAbandon;
    match e
    case Evaluate(w) => AccountEvaluate(s, w, excused);
    case Admit(w, eligible) => AccountAdmit(s, w, eligible, excused);
    case Dispatch(w, pick) => AccountDispatch(s, w, pick, excused);
    case PipelineMove(w, to, flagged) => AccountPipelineMove(s, w, to, flagged, excused);
    case PipelineFail(w) => AccountPipelineFail(s, w, excused);
    case Enter(w, granted) => AccountEnter(s, w, granted, excused);
    case SettleStep(w, got) => AccountSettleStep(s, w, got, excused);
    case SettleDeleted(w, answer) => AccountSettleDeleted(s, w, answer, excused);
    case SettleCommit(w) => AccountSettleCommit(s, w, excused);
    case Attach(w) => AccountAttach(s, w, excused);
    case DeleteOrphan(w, answer) => AccountDeleteOrphan(s, w, answer, excused);
    case RecordRefusal(w) => AccountRefusal(s, w, excused);
    case RecordUnknown(w) => AccountUnknown(s, w, excused);
    case StartReconcile(w) => AccountStartReconcile(s, w, excused);
  }

  lemma LateAccounts(s: World, e: Event, excused: set<nat>)
    requires Inv(s) && Own(s, false) && Covered(s, excused) && Excuses(s, e, Effect(s, e), excused) && !Early(e) && WorkerOf(e).Some?
    ensures Effect(s, e) == s || Accounts(s, Effect(s, e), WorkerOf(e).value, excused)
  {
    hide Inv, Own, Covered, Accounts, Excuses;
    hide OnClaim, OnOperatorReconcile, OnRemoteStops, OnOperatorCancel, OnOperatorRetry,
      OnApprovalMove, OnEvaluate, OnAdmit, OnDispatch, OnPipelineMove, OnPipelineFail, OnEnter,
      OnSettleStep, OnSettleDeleted, OnSettleCommit, OnInsert, OnBuild, OnSendPost, OnAttach,
      OnDeleteOrphan, OnRecordRefusal, OnRecordUnknown, OnStartReconcile, OnSearch,
      OnBlockUnmatched, OnPollCheck, OnPollAnswer, OnRecordLost, OnSettleOutcome, OnFinish,
      OnTimeoutGet, OnTimeoutDelete, OnPark, OnSweepTag, OnCloseOut, OnTerminateOne,
      OnTerminateCommit, OnReread, OnIngest, OnAbandon;
    match e
    case Build(w, ok) => AccountBuild(s, w, ok, excused);
    case Search(w, found) => AccountSearch(s, w, found, excused);
    case BlockUnmatched(w) => AccountUnmatched(s, w, excused);
    case PollCheck(w, expired) => AccountPollCheck(s, w, expired, excused);
    case PollAnswer(w, got) => AccountPollAnswer(s, w, got, excused);
    case RecordLost(w) => AccountLost(s, w, excused);
    case SettleOutcome(w) => AccountOutcome(s, w, excused);
    case Finish(w, valid) => AccountFinish(s, w, valid, excused);
    case TimeoutGet(w, got) => AccountTimeoutGet(s, w, got, excused);
    case TimeoutDelete(w, answer) => AccountTimeoutDelete(s, w, answer, excused);
    case Park(w) => AccountPark(s, w, excused);
    case SweepTag(w, sweep) => AccountSweepTag(s, w, sweep, excused);
    case CloseOut(w, expired) => AccountCloseOut(s, w, expired, excused);
    case TerminateOne(w, answer, sweep) => AccountTerminateOne(s, w, answer, sweep, excused);
    case TerminateCommit(w) => AccountTerminateCommit(s, w, excused);
    case Reread(w, got) => AccountReread(s, w, got, excused);
    case Ingest(w) => AccountIngest(s, w, excused);
    case Abandon(w) => AccountAbandon(s, w, excused);
  }

  lemma OtherCovered(s: World, e: Event, excused: set<nat>)
    requires Inv(s) && Own(s, false) && Covered(s, excused) && WorkerOf(e).None?
    ensures Covered(Effect(s, e), excused)
  {
    hide Inv, Own, Covered;
    hide OnClaim, OnOperatorReconcile, OnRemoteStops, OnOperatorCancel, OnOperatorRetry,
      OnApprovalMove, OnEvaluate, OnAdmit, OnDispatch, OnPipelineMove, OnPipelineFail, OnEnter,
      OnSettleStep, OnSettleDeleted, OnSettleCommit, OnInsert, OnBuild, OnSendPost, OnAttach,
      OnDeleteOrphan, OnRecordRefusal, OnRecordUnknown, OnStartReconcile, OnSearch,
      OnBlockUnmatched, OnPollCheck, OnPollAnswer, OnRecordLost, OnSettleOutcome, OnFinish,
      OnTimeoutGet, OnTimeoutDelete, OnPark, OnSweepTag, OnCloseOut, OnTerminateOne,
      OnTerminateCommit, OnReread, OnIngest, OnAbandon;
    match e
    case ClaimCase(_) => ArrivalCovered(s, e, excused);
    case OperatorReconcile(_) => ArrivalCovered(s, e, excused);
    case Crash(_) => ArrivalCovered(s, e, excused);
    case Insert(w, h, b) => InsertCovered(s, w, h, b, excused);
    case SendPost(w, posted, sid) => SendPostCovered(s, w, posted, sid, excused);
    case _ => AroundCovered(s, e, excused);
  }

  lemma NextCovered(s: World, e: Event, excused: set<nat>)
    requires Inv(s) && Own(s, false) && Covered(s, excused) && Excuses(s, e, Next(s, e), excused)
    ensures Covered(Next(s, e), excused)
  {
    hide Inv, Own, Covered, Effect, Waits, Excuses, Early, Accounts;
    if Next(s, e) != s {
      assert Next(s, e) == Effect(s, e);
      if WorkerOf(e).Some? {
        if Early(e) { EarlyAccounts(s, e, excused); } else { LateAccounts(s, e, excused); }
        AccountsKeep(s, Effect(s, e), WorkerOf(e).value, excused);
      } else {
        OtherCovered(s, e, excused);
      }
    }
  }

  // ------------------------------------------------------------------ over every run

  /** The rows that were let go of while something worked with their key. */
  ghost function LetGo(config: Config, es: seq<Event>): set<nat> {
    if es == [] then {}
    else
      var front, e := es[..|es| - 1], es[|es| - 1];
      var s := Run(Initial(config), front);
      LetGo(config, front) + set i | 0 <= i < |s.attempts| && LetsGo(s, e, Next(s, e), i)
  }

  lemma MoreExcused(s: World, some: set<nat>, more: set<nat>)
    requires Covered(s, some) && some <= more
    ensures Covered(s, more)
  {
    forall i: nat | Done(s, i, some) ensures Done(s, i, more) {}
    hide Done, Owning;
    forall w <- s.processes ensures PcCovered(s, s.processes[w].pc, more) { MoreCovered(s, s.processes[w].pc, some, more); }
  }

  lemma MoreCovered(s: World, pc: Pc, some: set<nat>, more: set<nat>)
    requires PcCovered(s, pc, some) && some <= more
    ensures PcCovered(s, pc, more)
  {
    forall i: nat | Done(s, i, some) ensures Done(s, i, more) {}
  }

  lemma {:induction false} RunCovered(config: Config, es: seq<Event>)
    requires SerialRun(config, es, false)
    ensures Covered(Run(Initial(config), es), LetGo(config, es))
  {
    if es != [] {
      hide Covered, Next, Own, Inv, SerialRun, LetGo, Excuses;
      var n := |es| - 1;
      var front := es[..n];
      var s := Run(Initial(config), front);
      SerialFront(config, es);
      RunCovered(config, front);
      OwnsAll(config, front);
      LetGoGrows(config, es);
      MoreExcused(s, LetGo(config, front), LetGo(config, es));
      NextCovered(s, es[n], LetGo(config, es));
    }
  }

  lemma OwnsAll(config: Config, es: seq<Event>)
    requires SerialRun(config, es, false)
    ensures Inv(Run(Initial(config), es)) && Own(Run(Initial(config), es), false)
  {
    hide Inv, Own, SerialRun;
    RunOwns(config, es, |es|, false);
    assert es[..|es|] == es;
  }

  lemma LetGoGrows(config: Config, es: seq<Event>)
    requires es != []
    ensures
      var front, e := es[..|es| - 1], es[|es| - 1];
      var s := Run(Initial(config), front);
      LetGo(config, front) <= LetGo(config, es) && Excuses(s, e, Next(s, e), LetGo(config, es))
  {
    hide Next, Run, LetsGo;
  }

  lemma SerialFront(config: Config, es: seq<Event>)
    requires SerialRun(config, es, false) && es != []
    ensures SerialRun(config, es[..|es| - 1], false)
  {
    hide Serial, Run;
    var front := es[..|es| - 1];
    forall n | 0 <= n < |front| ensures Serial(At(config, front, n), front[n]) { assert front[..n] == es[..n]; }
  }

  /** Event `n` of the run lets go of row `i`. */
  ghost predicate LetsGoAt(config: Config, es: seq<Event>, n: nat, i: nat) {
    n < |es| && LetsGo(At(config, es, n), es[n], At(config, es, n + 1), i)
  }

  lemma {:induction false} LetGoAt(config: Config, es: seq<Event>, i: nat)
    requires i in LetGo(config, es)
    ensures exists n: nat :: LetsGoAt(config, es, n, i)
  {
    hide Next, LetsGo;
    var n := |es| - 1;
    var front := es[..n];
    AtNext(config, es, n);
    if i in LetGo(config, front) {
      LetGoAt(config, front, i);
      var m: nat :| LetsGoAt(config, front, m, i);
      assert front[..m] == es[..m] && front[..m + 1] == es[..m + 1];
      assert LetsGoAt(config, es, m, i);
    } else {
      assert LetsGoAt(config, es, n, i);
    }
  }

  /** In every run with one holder of the claim at a time, every session at work was made for one
      attempt, which owns it - or which was let go of, at some event of the run, while it worked:
      its creator could not attach it any more; an operator had vouched for a create that had
      worked after all; a search by its tag missed it; or its output was read while it worked. */
  lemma EveryWorkingSessionIsAccountedFor(config: Config, es: seq<Event>, x: nat)
    requires SerialRun(config, es, false) && WorksOn(Run(Initial(config), es), x)
    ensures
      var s := Run(Initial(config), es);
      exists i | 0 <= i < |s.attempts| && s.attempts[i].key == s.sessions[x].tag ::
        Owning(s.attempts[i]) || exists n: nat :: LetsGoAt(config, es, n, i)
  {
    hide Inv, Own, LetsGo, Initial;
    var s := Run(Initial(config), es);
    OwnsAll(config, es);
    RunCovered(config, es);
    var i := MadeFor(s, x);
    if !Owning(s.attempts[i]) {
      WorkingIsExcused(s, i, x, LetGo(config, es));
      LetGoAt(config, es, i);
    }
  }

  /** The row whose POST made the session. */
  lemma MadeFor(s: World, x: nat) returns (i: nat)
    requires Inv(s) && Own(s, false) && x in s.sessions
    ensures i < |s.attempts| && s.attempts[i].key == s.sessions[x].tag
  {
    hide Own, RowsOk, CreatorsOk, PlansOk;
    OwnData(s);
    var p :| p in s.posts && p.key == s.sessions[x].tag;
    var k :| 0 <= k < |s.posts| && s.posts[k] == p;
    assert PostOk(s, p);
    i := p.attempt;
  }

  lemma WorkingIsExcused(s: World, i: nat, x: nat, excused: set<nat>)
    requires Covered(s, excused) && i < |s.attempts| && WorksOn(s, x) && s.sessions[x].tag == s.attempts[i].key && !Owning(s.attempts[i])
    ensures i in excused
  {
    hide PcCovered, Owning;
  }

  /** As long as none of that happens, whatever works is owned. */
  lemma NothingWorksUnowned(config: Config, es: seq<Event>, x: nat)
    requires SerialRun(config, es, false) && WorksOn(Run(Initial(config), es), x)
    requires forall n: nat, i: nat :: !LetsGoAt(config, es, n, i)
    ensures
      var s := Run(Initial(config), es);
      exists i | 0 <= i < |s.attempts| && s.attempts[i].key == s.sessions[x].tag :: Owning(s.attempts[i])
  {
    hide LetsGoAt, Initial, SerialRun, Run;
    EveryWorkingSessionIsAccountedFor(config, es, x);
  }
}
