/** A session whose creator cannot attach it any more: the row is cancelled, and from then on nobody
    but the creator's one DELETE and the remote itself ends the session. */
module SessionOrphan {
  import opened Wrappers
  import opened Tags
  import opened SessionModel
  import opened SessionProtocol
  import opened SessionSafety
  import opened SessionOwnership
  import opened SessionSharing
  import opened SessionHandover
  import L = Lifecycle
  import S = Status

  // ------------------------------------------------------------------ a row that nobody works on

  /** The program point refers to row `i`. */
  predicate Names(pc: Pc, i: nat) {
    || RowOf(pc) == Some(i)
    || (pc.Settling? && (i in pc.todo || i in pc.closed))
    || (pc.SettleDelete? && (i in pc.todo || i in pc.closed))
    || (pc.Terminating? && (i in pc.todo || i in pc.closed || i in pc.parked))
    || (pc.Rereading? && (pc.todo != [] || pc.found != []) &&
        (i in pc.candidates || i in pc.todo || exists e <- pc.found :: e.0 == i))
  }

  predicate Away(pc: Pc, i: nat, x: nat) { !Names(pc, i) && (pc.Attaching? ==> pc.sid != x) }

  /** Row `i` names session `x` and has let go of it; no other row and no process at work does. */
  ghost predicate Adrift(s: World, i: nat, x: nat) {
    && i < |s.attempts| && !Owning(s.attempts[i]) && s.attempts[i].session == Some(x)
    && x in s.sessions && s.sessions[x].tag == s.attempts[i].key
    && (forall j | 0 <= j < |s.attempts| && j != i :: s.attempts[j].session != Some(x))
    && (forall w <- s.processes :: Away(s.processes[w].pc, i, x))
  }

  /** What can still end such a session: the DELETE of its creator, or the remote. */
  predicate Ends(s: World, e: Event, x: nat) {
    match e
    case RemoteStops(sid) => sid == x
    case RemoteVanishes(sid) => sid == x
    case DeleteOrphan(w, answer) => answer.Deleted? && w in s.processes && s.processes[w].pc == Orphaned(x)
    case _ => false
  }

  /** The step leaves the row, the session and everybody's distance to them alone. */
  ghost predicate Spares(s: World, t: World, i: nat, x: nat) {
    && i < |s.attempts| <= |t.attempts| && t.attempts[i] == s.attempts[i]
    && (forall j | 0 <= j < |t.attempts| && j != i :: t.attempts[j].session != Some(x))
    && (forall w <- t.processes :: Away(t.processes[w].pc, i, x))
    && x in s.sessions && x in t.sessions && t.sessions[x] == s.sessions[x]
  }

  lemma AtAway(s: World, w: nat, i: nat, x: nat)
    requires Adrift(s, i, x) && w in s.processes
    ensures Away(s.processes[w].pc, i, x)
  {
    hide Away, Owning;
  }

  lemma SparesIdle(s: World, i: nat, x: nat)
    requires Adrift(s, i, x)
    ensures Spares(s, s, i, x)
  {
    hide Away, Owning;
  }

  // What a transaction may do to the data.

  lemma SparesRow(s: World, j: nat, b: Attempt, i: nat, x: nat)
    requires Adrift(s, i, x) && j < |s.attempts| && j != i && b.session != Some(x)
    ensures Spares(s, SetRow(s, j, b), i, x)
  {
    hide Away, Owning;
  }

  lemma SparesRewrite(s: World, which: set<nat>, f: Attempt -> Attempt, i: nat, x: nat)
    requires Adrift(s, i, x) && i !in which
    requires forall j <- which | j < |s.attempts| :: f(s.attempts[j]).session == s.attempts[j].session
    ensures Spares(s, s.(attempts := Rewrite(s.attempts, which, f)), i, x)
  {
    hide Away, Owning;
  }

  lemma SparesDelete(s: World, sids: set<nat>, i: nat, x: nat)
    requires Adrift(s, i, x) && x !in sids
    ensures Spares(s, s.(sessions := Delete(s.sessions, sids)), i, x)
  {
    hide Away, Owning;
  }

  // What ends a transaction.

  lemma SparesGoto(s: World, m: World, w: nat, pc: Pc, i: nat, x: nat)
    requires Spares(s, m, i, x) && w in s.processes && m.processes == s.processes && Away(pc, i, x)
    ensures Spares(s, Goto(m, w, pc), i, x)
  {
    hide Away;
  }

  lemma SparesEnd(s: World, m: World, w: nat, i: nat, x: nat)
    requires Spares(s, m, i, x) && w in s.processes && m.processes == s.processes
    ensures Spares(s, Stop(m, w), i, x) && Spares(s, Lost(m, w), i, x)
  {
    assert Away(Abandoning, i, x);
    hide Away;
  }

  lemma SparesMove(s: World, changed: World, w: nat, to: L.CaseState, pc: Pc, i: nat, x: nat)
    requires Adrift(s, i, x) && Spares(s, changed, i, x) && w in s.processes && OnlyRows(s, changed) && Away(pc, i, x)
    ensures Spares(s, MoveOn(s, changed, w, to, pc), i, x) && Spares(s, MoveAndStop(s, changed, w, to), i, x)
  {
    hide Spares, Adrift, CanMove, Lost, Stop, Goto;
    SparesIdle(s, i, x);
    SparesEnd(s, s, w, i, x);
    if CanMove(changed, w, to) {
      assert Spares(s, Goto(Moved(changed, w, to), w, pc), i, x) && Spares(s, Stop(Moved(changed, w, to), w), i, x) by {
        SparesMoved(s, changed, w, to, pc, i, x);
      }
    }
  }

  lemma SparesMoved(s: World, changed: World, w: nat, to: L.CaseState, pc: Pc, i: nat, x: nat)
    requires Adrift(s, i, x) && Spares(s, changed, i, x) && w in s.processes && OnlyRows(s, changed) && Away(pc, i, x)
    ensures Spares(s, Goto(Moved(changed, w, to), w, pc), i, x) && Spares(s, Stop(Moved(changed, w, to), w), i, x)
  {
    hide Away, Owning;
  }

  lemma SparesFail(s: World, changed: World, w: nat, i: nat, x: nat)
    requires Adrift(s, i, x) && Spares(s, changed, i, x) && w in s.processes && OnlyRows(s, changed)
    ensures Spares(s, FailJob(s, changed, w), i, x)
  {
    assert Away(Abandoning, i, x);
    hide Away, FailJob;
    assert i !in LiveRows(changed.attempts);
  }

  /** Whatever a transaction about another row `j` ends with. */
  lemma SparesOther(s: World, w: nat, j: nat, b: Attempt, to: L.CaseState, pc: Pc, i: nat, x: nat)
    requires Adrift(s, i, x) && w in s.processes && j < |s.attempts| && j != i && b.session != Some(x) && Away(pc, i, x)
    ensures
      var changed := SetRow(s, j, b);
      && OnlyRows(s, changed) && Spares(s, changed, i, x)
      && Spares(s, Goto(changed, w, pc), i, x) && Spares(s, Stop(changed, w), i, x) && Spares(s, FailJob(s, changed, w), i, x)
      && Spares(s, MoveOn(s, changed, w, to, pc), i, x) && Spares(s, MoveAndStop(s, changed, w, to), i, x)
      && Spares(s, Goto(s, w, pc), i, x) && Spares(s, Lost(s, w), i, x) && Spares(s, Stop(s, w), i, x)
  {
    hide Spares, Adrift, Away, Goto, Stop, Lost, FailJob, MoveOn, MoveAndStop;
    var changed := SetRow(s, j, b);
    SparesRow(s, j, b, i, x);
    SparesIdle(s, i, x);
    SparesGoto(s, changed, w, pc, i, x);
    SparesGoto(s, s, w, pc, i, x);
    SparesEnd(s, changed, w, i, x);
    SparesEnd(s, s, w, i, x);
    SparesFail(s, changed, w, i, x);
    SparesMove(s, changed, w, to, pc, i, x);
  }

  // One lemma per step.

  lemma SparesArrival(s: World, e: Event, i: nat, x: nat)
    requires Adrift(s, i, x) && (e.ClaimCase? || e.OperatorReconcile? || e.Crash?)
    ensures Spares(s, Effect(s, e), i, x)
  {
    hide Claimable, Away, Owning, RetainedRows;
    assert Away(Dispatching, i, x) && Away(Rereading(RetainedRows(s.attempts), RetainedRows(s.attempts), []), i, x) by {
      FirstPoints(s, i, x);
    }
  }

  lemma FirstPoints(s: World, i: nat, x: nat)
    requires i < |s.attempts| && !Owning(s.attempts[i])
    ensures Away(Dispatching, i, x) && Away(Rereading(RetainedRows(s.attempts), RetainedRows(s.attempts), []), i, x)
  {}

  lemma SparesAround(s: World, e: Event, i: nat, x: nat)
    requires Adrift(s, i, x) && (e.OperatorCancel? || e.OperatorRetry? || e.ApprovalMove?)
    ensures Spares(s, Effect(s, e), i, x)
  {
    hide L.Allowed, MayOwn, CapReached, Away;
  }

  lemma SparesEvaluate(s: World, w: nat, i: nat, x: nat)
    requires Adrift(s, i, x)
    ensures Spares(s, OnEvaluate(s, w), i, x)
  {
    hide Spares, Adrift, Goto, Stop, Lost, FailJob, MoveOn, MoveAndStop, CanMove, L.Allowed;
    SparesIdle(s, i, x);
    if OnEvaluate(s, w) != s {
      AtAway(s, w, i, x);
      SparesMove(s, s, w, L.EligibilityEvaluated, Evaluated, i, x);
    }
  }

  lemma SparesAdmit(s: World, w: nat, eligible: bool, i: nat, x: nat)
    requires Adrift(s, i, x)
    ensures Spares(s, OnAdmit(s, w, eligible), i, x)
  {
    hide Spares, Adrift, Goto, Stop, Lost, FailJob, MoveOn, MoveAndStop, CanMove, L.Allowed;
    SparesIdle(s, i, x);
    if OnAdmit(s, w, eligible) != s {
      AtAway(s, w, i, x);
      SparesMove(s, s, w, L.TriageCreateIntent, Entered(Triage), i, x);
      SparesMove(s, s, w, L.PolicyRejected, Evaluated, i, x);
    }
  }

  lemma SparesDispatch(s: World, w: nat, pick: nat, i: nat, x: nat)
    requires Adrift(s, i, x)
    ensures Spares(s, OnDispatch(s, w, pick), i, x)
  {
    hide Spares, Adrift, Goto, Stop, NewestActiveIsTriage, Select, RetainedRows, Away;
    SparesIdle(s, i, x);
    if OnDispatch(s, w, pick) != s {
      SparesEnd(s, s, w, i, x);
      SparesGoto(s, s, w, Entered(Triage), i, x) by { EnteringIsAway(Triage, i, x); }
      SparesGoto(s, s, w, Entered(Remediation), i, x) by { EnteringIsAway(Remediation, i, x); }
      if pick < |s.attempts| && s.attempts[pick].kind == Triage { assert Entered(s.attempts[pick].kind) == Entered(Triage); }
      else if pick < |s.attempts| { assert Entered(s.attempts[pick].kind) == Entered(Remediation); }
      SparesLists(s, w, i, x);
    }
  }

  lemma EnteringIsAway(kind: Kind, i: nat, x: nat)
    ensures Away(Entered(kind), i, x)
  {}

  /** The lists a process starts with hold rows that own a session. */
  lemma SparesLists(s: World, w: nat, i: nat, x: nat)
    requires Adrift(s, i, x) && w in s.processes
    ensures Spares(s, Goto(s, w, Terminating(Select(s.attempts, Owning, |s.attempts|), {}, {})), i, x)
    ensures Spares(s, Goto(s, w, Rereading(RetainedRows(s.attempts), RetainedRows(s.attempts), [])), i, x)
  {
    hide Spares, Adrift, Goto;
    OwnersAreOthers(s, i, x);
    SparesIdle(s, i, x);
    SparesGoto(s, s, w, Terminating(Select(s.attempts, Owning, |s.attempts|), {}, {}), i, x);
    SparesGoto(s, s, w, Rereading(RetainedRows(s.attempts), RetainedRows(s.attempts), []), i, x);
  }

  lemma SparesPipelineMove(s: World, w: nat, to: L.CaseState, flagged: bool, i: nat, x: nat)
    requires Adrift(s, i, x)
    ensures Spares(s, OnPipelineMove(s, w, to, flagged), i, x)
  {
    hide Spares, Adrift, Goto, Stop, Lost, FailJob, MoveOn, MoveAndStop, CanMove, L.Allowed;
    SparesIdle(s, i, x);
    if OnPipelineMove(s, w, to, flagged) != s {
      AtAway(s, w, i, x);
      SparesMoved(s, s, w, to, s.processes[w].pc, i, x);
      assert Moved(s, w, to) == Goto(Moved(s, w, to), w, s.processes[w].pc) by { MovedStays(s, w, to); }
    }
  }

  lemma MovedStays(s: World, w: nat, to: L.CaseState)
    requires w in s.processes
    ensures Moved(s, w, to) == Goto(Moved(s, w, to), w, s.processes[w].pc)
  {}

  lemma SparesPipelineFail(s: World, w: nat, i: nat, x: nat)
    requires Adrift(s, i, x)
    ensures Spares(s, OnPipelineFail(s, w), i, x)
  {
    hide Spares, Adrift, Goto, Stop, Lost, FailJob, MoveOn, MoveAndStop, CanMove, L.Allowed;
    SparesIdle(s, i, x);
    if OnPipelineFail(s, w) != s {
      AtAway(s, w, i, x);
      SparesFail(s, s, w, i, x);
    }
  }

  lemma SparesEnter(s: World, w: nat, granted: bool, i: nat, x: nat)
    requires Adrift(s, i, x)
    ensures Spares(s, OnEnter(s, w, granted), i, x)
  {
    hide Spares, Adrift, Goto, Stop, Lost, FailJob, MoveOn, MoveAndStop, CanMove, L.Allowed, NextOrdinal, NewestActive, Select, EntryPlan;
    SparesIdle(s, i, x);
    if OnEnter(s, w, granted) != s {
      AtAway(s, w, i, x);
      SparesEnd(s, s, w, i, x);
      SparesFail(s, s, w, i, x);
      var kind := s.processes[w].pc.kind;
      SparesPlan(s, w, kind, i, x);
      match NewestActive(s.attempts, kind, |s.attempts|)
      case None =>
      case Some(j) =>
        assert j != i by { OwnersAreOthers(s, i, x); }
        SparesGoto(s, s, w, Sweeping(j), i, x);
        SparesGoto(s, s, w, Handling(j), i, x);
        SparesGoto(s, s, w, BeginReconcile(j), i, x);
        SparesGoto(s, s, w, Polling(j), i, x);
        SparesMove(s, s, w, PhaseOf(kind).running, Polling(j), i, x);
    }
  }

  lemma OwnersAreOthers(s: World, i: nat, x: nat)
    requires Adrift(s, i, x)
    ensures i < |s.attempts| && !Owning(s.attempts[i])
  {
    hide Away, Owning;
  }

  lemma SparesPlan(s: World, w: nat, kind: Kind, i: nat, x: nat)
    requires Adrift(s, i, x) && w in s.processes
    ensures
      var todo := Select(s.attempts, a => Unsettled(a, kind), |s.attempts|);
      Spares(s, Goto(s, w, Settling(kind, NextOrdinal(s.attempts, kind), todo, {})), i, x)
  {
    hide Spares, Adrift, NextOrdinal, Goto;
    OwnersAreOthers(s, i, x);
    SparesIdle(s, i, x);
    var todo := Select(s.attempts, a => Unsettled(a, kind), |s.attempts|);
    assert i !in todo;
    SparesGoto(s, s, w, Settling(kind, NextOrdinal(s.attempts, kind), todo, {}), i, x);
  }

  lemma SparesSettleStep(s: World, w: nat, got: GetAnswer, i: nat, x: nat)
    requires Adrift(s, i, x)
    ensures Spares(s, OnSettleStep(s, w, got), i, x)
  {
    hide Spares, Adrift, Goto, Stop, Lost, FailJob, MoveOn, MoveAndStop, CanMove, L.Allowed, TruthfulGet;
    SparesIdle(s, i, x);
    if OnSettleStep(s, w, got) != s {
      AtAway(s, w, i, x);
      var Settling(kind, n, todo, closed) := s.processes[w].pc;
      SparesRewrite(s, closed, CancelledRow, i, x);
      SparesFail(s, CancelledRows(s, closed), w, i, x);
      assert todo == [todo[0]] + todo[1..];
      SparesGoto(s, s, w, Settling(kind, n, todo[1..], closed + {todo[0]}), i, x);
      SparesGoto(s, s, w, Settling(kind, n, todo[1..], closed), i, x);
      SparesGoto(s, s, w, SettleDelete(kind, n, todo, closed), i, x);
    }
  }

  lemma SparesSettleDeleted(s: World, w: nat, answer: DeleteAnswer, i: nat, x: nat)
    requires Adrift(s, i, x)
    ensures Spares(s, OnSettleDeleted(s, w, answer), i, x)
  {
    hide Spares, Adrift, Goto, Stop, Lost, FailJob, MoveOn, MoveAndStop, CanMove, L.Allowed, TruthfulDelete, AfterDelete;
    SparesIdle(s, i, x);
    if OnSettleDeleted(s, w, answer) != s {
      AtAway(s, w, i, x);
      var SettleDelete(kind, n, todo, closed) := s.processes[w].pc;
      SparesRewrite(s, closed, CancelledRow, i, x);
      SparesFail(s, CancelledRows(s, closed), w, i, x);
      assert todo == [todo[0]] + todo[1..] && todo[0] != i;
      SparesAnswer(s, todo[0], answer, i, x);
      SparesGoto(s, AfterDelete(s, s.attempts[todo[0]].session.value, answer), w, Settling(kind, n, todo[1..], closed + {todo[0]}), i, x);
    }
  }

  lemma SparesAnswer(s: World, j: nat, answer: DeleteAnswer, i: nat, x: nat)
    requires Adrift(s, i, x) && j < |s.attempts| && j != i && s.attempts[j].session.Some?
    ensures
      var m := AfterDelete(s, s.attempts[j].session.value, answer);
      Spares(s, m, i, x) && m.processes == s.processes
  {
    hide Spares, Away, Owning;
    SparesIdle(s, i, x);
    SparesDelete(s, {s.attempts[j].session.value}, i, x);
  }

  lemma SparesSettleCommit(s: World, w: nat, i: nat, x: nat)
    requires Adrift(s, i, x)
    ensures Spares(s, OnSettleCommit(s, w), i, x)
  {
    hide Spares, Adrift, Goto, Stop, Lost, FailJob, MoveOn, MoveAndStop, CanMove, L.Allowed;
    SparesIdle(s, i, x);
    if OnSettleCommit(s, w) != s {
      AtAway(s, w, i, x);
      var pc := s.processes[w].pc;
      SparesRewrite(s, pc.closed, CancelledRow, i, x);
      SparesGoto(s, CancelledRows(s, pc.closed), w, Inserting(pc.kind, pc.ordinal), i, x);
    }
  }

  lemma SparesInsert(s: World, w: nat, h: string, b: string, i: nat, x: nat)
    requires Adrift(s, i, x)
    ensures Spares(s, OnInsert(s, w, h, b), i, x)
  {
    hide KeyFor, Insertable, Owning;
  }

  lemma SparesBuild(s: World, w: nat, ok: bool, i: nat, x: nat)
    requires Adrift(s, i, x)
    ensures Spares(s, OnBuild(s, w, ok), i, x)
  {
    hide Spares, Adrift, Goto, Stop, Lost, FailJob, MoveOn, MoveAndStop, CanMove, L.Allowed, SetRow;
    SparesIdle(s, i, x);
    if OnBuild(s, w, ok) != s {
      AtAway(s, w, i, x);
      var j := s.processes[w].pc.attempt;
      var a := s.attempts[j];
      OthersSessions(s, j, i, x);
      if ok {
        SparesOther(s, w, j, a.(sent := true), s.state, Posting(j), i, x);
      } else {
        SparesOther(s, w, j, a.(createState := NotSent, status := Failed, finished := true), s.state, Abandoning, i, x);
      }
    }
  }

  lemma OthersSessions(s: World, j: nat, i: nat, x: nat)
    requires Adrift(s, i, x) && j < |s.attempts| && j != i
    ensures s.attempts[j].session != Some(x)
  {
    hide Away, Owning;
  }

  lemma SparesSendPost(s: World, w: nat, posted: PostAnswer, sid: nat, i: nat, x: nat)
    requires Adrift(s, i, x)
    ensures Spares(s, OnSendPost(s, w, posted, sid), i, x)
  {
    hide Owning;
  }

  lemma SparesAttach(s: World, w: nat, i: nat, x: nat)
    requires Adrift(s, i, x)
    ensures Spares(s, OnAttach(s, w), i, x)
  {
    hide Spares, Adrift, Goto, Stop, Lost, FailJob, MoveOn, MoveAndStop, CanMove, L.Allowed;
    SparesIdle(s, i, x);
    if OnAttach(s, w) != s {
      AtAway(s, w, i, x);
      var Attaching(j, sid, created) := s.processes[w].pc;
      var a := s.attempts[j].(createState := created, session := Some(sid));
      var b := a.(status := Running, reason := NoReason);
      SparesOther(s, w, j, SessionModel.Closed(a, Cancelled), s.state, Orphaned(sid), i, x);
      SparesRow(s, j, b, i, x);
      SparesMoved(s, SetRow(s, j, b), w, PhaseOf(a.kind).running, Polling(j), i, x);
    }
  }

  lemma SparesRefusal(s: World, w: nat, i: nat, x: nat)
    requires Adrift(s, i, x)
    ensures Spares(s, OnRecordRefusal(s, w), i, x)
  {
    hide Spares, Adrift, Goto, Stop, Lost, FailJob, MoveOn, MoveAndStop, CanMove, L.Allowed, SetRow;
    SparesIdle(s, i, x);
    if OnRecordRefusal(s, w) != s {
      AtAway(s, w, i, x);
      var j := s.processes[w].pc.attempt;
      OthersSessions(s, j, i, x);
      SparesOther(s, w, j, SessionModel.Closed(s.attempts[j], Failed).(createState := ApiError), s.state, Abandoning, i, x);
    }
  }

  lemma SparesUnknown(s: World, w: nat, i: nat, x: nat)
    requires Adrift(s, i, x)
    ensures Spares(s, OnRecordUnknown(s, w), i, x)
  {
    hide Spares, Adrift, Goto, Stop, Lost, FailJob, MoveOn, MoveAndStop, CanMove, L.Allowed, SetRow;
    SparesIdle(s, i, x);
    if OnRecordUnknown(s, w) != s {
      AtAway(s, w, i, x);
      var j := s.processes[w].pc.attempt;
      var b := s.attempts[j].(createState := Uncertain, status := Reconciling, reason := OtherReason);
      OthersSessions(s, j, i, x);
      SparesOther(s, w, j, b, PhaseOf(b.kind).reconciling, BeginReconcile(j), i, x);
    }
  }

  lemma SparesStartReconcile(s: World, w: nat, i: nat, x: nat)
    requires Adrift(s, i, x)
    ensures Spares(s, OnStartReconcile(s, w), i, x)
  {
    hide Spares, Adrift, Goto, Stop, Lost, FailJob, MoveOn, MoveAndStop, CanMove, L.Allowed, SetRow;
    SparesIdle(s, i, x);
    if OnStartReconcile(s, w) != s {
      AtAway(s, w, i, x);
      var j := s.processes[w].pc.attempt;
      var a := s.attempts[j].(status := Reconciling);
      var marked := if a.createState == CreateState.Pending then a.(createState := Uncertain, reason := OtherReason) else a;
      OthersSessions(s, j, i, x);
      SparesOther(s, w, j, marked, PhaseOf(a.kind).reconciling, Searching(j), i, x);
    }
  }

  lemma SparesSearch(s: World, w: nat, found: SearchAnswer, i: nat, x: nat)
    requires Inv(s) && Adrift(s, i, x)
    ensures Spares(s, OnSearch(s, w, found), i, x)
  {
    hide Spares, Adrift, Goto, Inv;
    SparesIdle(s, i, x);
    if OnSearch(s, w, found) != s {
      AtAway(s, w, i, x);
      var j := s.processes[w].pc.attempt;
      KeysDiffer(s, j, i, x);
      match found
      case OneMatch(sid) => SparesGoto(s, s, w, Attaching(j, sid, Reconciled), i, x);
      case NoSingleMatch => SparesGoto(s, s, w, Unmatched(j), i, x);
    }
  }

  /** The session does not carry the key of any other row. */
  lemma KeysDiffer(s: World, j: nat, i: nat, x: nat)
    requires Inv(s) && Adrift(s, i, x) && j < |s.attempts| && j != i
    ensures x in s.sessions && s.sessions[x].tag != s.attempts[j].key
  {
    hide PostsOk, CreatorsOk, PlansOk, Away, Owning;
  }

  lemma SparesUnmatched(s: World, w: nat, i: nat, x: nat)
    requires Adrift(s, i, x)
    ensures Spares(s, OnBlockUnmatched(s, w), i, x)
  {
    hide Spares, Adrift, Goto, Stop, Lost, FailJob, MoveOn, MoveAndStop, CanMove, L.Allowed, SetRow;
    SparesIdle(s, i, x);
    if OnBlockUnmatched(s, w) != s {
      AtAway(s, w, i, x);
      var j := s.processes[w].pc.attempt;
      var b := SessionModel.Closed(s.attempts[j], Blocked).(createState := Unresolved, reason := OtherReason);
      OthersSessions(s, j, i, x);
      SparesOther(s, w, j, b, PhaseOf(b.kind).humanBlocked, Abandoning, i, x);
    }
  }

  lemma SparesPollCheck(s: World, w: nat, expired: bool, i: nat, x: nat)
    requires Adrift(s, i, x)
    ensures Spares(s, OnPollCheck(s, w, expired), i, x)
  {
    hide Owning, L.IsTerminationPending;
  }

  lemma SparesPollAnswer(s: World, w: nat, got: GetAnswer, i: nat, x: nat)
    requires Adrift(s, i, x)
    ensures Spares(s, OnPollAnswer(s, w, got), i, x)
  {
    hide Spares, Adrift, Goto, Stop, Lost, FailJob, MoveOn, MoveAndStop, CanMove, L.Allowed, SetRow, TruthfulGet;
    SparesIdle(s, i, x);
    if OnPollAnswer(s, w, got) != s {
      AtAway(s, w, i, x);
      var j := s.processes[w].pc.attempt;
      var a := s.attempts[j];
      OthersSessions(s, j, i, x);
      match got
      case GetError => SparesOther(s, w, j, a.(status := Reconciling, reason := OtherReason), s.state, Polling(j), i, x);
      case GetNotFound => SparesGoto(s, s, w, SessionLost(j), i, x);
      case Snapshot(d, _, output, _) =>
        SparesOther(s, w, j, a.(status := Reconciling, reason := OtherReason), s.state, Polling(j), i, x);
        SparesOther(s, w, j, a.(status := Running, reason := NoReason), s.state, Polling(j), i, x);
        SparesOther(s, w, j, a.(status := Running, reason := NoReason), s.state, Settled(j, d, output), i, x);
    }
  }

  lemma SparesLost(s: World, w: nat, i: nat, x: nat)
    requires Adrift(s, i, x)
    ensures Spares(s, OnRecordLost(s, w), i, x)
  {
    hide Spares, Adrift, Goto, Stop, Lost, FailJob, MoveOn, MoveAndStop, CanMove, L.Allowed, SetRow;
    SparesIdle(s, i, x);
    if OnRecordLost(s, w) != s {
      AtAway(s, w, i, x);
      var j := s.processes[w].pc.attempt;
      OthersSessions(s, j, i, x);
      SparesOther(s, w, j, SessionModel.Closed(s.attempts[j], Failed), s.state, Abandoning, i, x);
    }
  }

  lemma SparesOutcome(s: World, w: nat, i: nat, x: nat)
    requires Adrift(s, i, x)
    ensures Spares(s, OnSettleOutcome(s, w), i, x)
  {
    hide Spares, Adrift, Goto, Stop, Lost, FailJob, MoveOn, MoveAndStop, CanMove, L.Allowed, SetRow;
    SparesIdle(s, i, x);
    if OnSettleOutcome(s, w) != s {
      AtAway(s, w, i, x);
      var Settled(j, d, output) := s.processes[w].pc;
      var a := s.attempts[j];
      OthersSessions(s, j, i, x);
      SparesOther(s, w, j, a.(output := output, finished := true), s.state, Finishing(j), i, x);
      SparesOther(s, w, j, SessionModel.Closed(a, Blocked), PhaseOf(a.kind).humanBlocked, Abandoning, i, x);
      SparesOther(s, w, j, SessionModel.Closed(a, Failed), s.state, Abandoning, i, x);
    }
  }

  lemma SparesFinish(s: World, w: nat, valid: bool, i: nat, x: nat)
    requires Adrift(s, i, x)
    ensures Spares(s, OnFinish(s, w, valid), i, x)
  {
    hide Spares, Adrift, Goto, Stop, Lost, FailJob, MoveOn, MoveAndStop, CanMove, Moved, SetRow, L.Allowed;
    SparesIdle(s, i, x);
    if OnFinish(s, w, valid) != s {
      AtAway(s, w, i, x);
      var j := s.processes[w].pc.attempt;
      var a := s.attempts[j];
      var succeeded := SetRow(s, j, a.(status := Succeeded));
      OthersSessions(s, j, i, x);
      SparesOther(s, w, j, a.(status := Succeeded), L.OutputValidating, Abandoning, i, x);
      SparesOther(s, w, j, a.(status := Failed, output := false), s.state, Abandoning, i, x);
      SparesTriaged(s, succeeded, w, i, x);
    }
  }

  lemma SparesTriaged(s: World, changed: World, w: nat, i: nat, x: nat)
    requires Spares(s, changed, i, x) && w in s.processes && changed.processes == s.processes
    ensures Spares(s, Stop(Moved(Moved(changed, w, L.Triaged), w, L.AwaitingRemediationApproval), w), i, x)
  {
    hide Away;
  }

  lemma SparesTimeoutGet(s: World, w: nat, got: GetAnswer, i: nat, x: nat)
    requires Adrift(s, i, x)
    ensures Spares(s, OnTimeoutGet(s, w, got), i, x)
  {
    hide Spares, Adrift, Goto, Stop, Lost, FailJob, MoveOn, MoveAndStop, CanMove, L.Allowed, SetRow, TruthfulGet;
    SparesIdle(s, i, x);
    if OnTimeoutGet(s, w, got) != s {
      AtAway(s, w, i, x);
      var j := s.processes[w].pc.attempt;
      OthersSessions(s, j, i, x);
      SparesGoto(s, s, w, Deleting(j), i, x);
      SparesGoto(s, s, w, Closing(j), i, x);
      if got.Snapshot? {
        SparesOther(s, w, j, s.attempts[j].(status := Running), s.state, Settled(j, got.disposition, got.output), i, x);
      }
    }
  }

  lemma SparesTimeoutDelete(s: World, w: nat, answer: DeleteAnswer, i: nat, x: nat)
    requires Adrift(s, i, x)
    ensures Spares(s, OnTimeoutDelete(s, w, answer), i, x)
  {
    hide Spares, Adrift, Goto, Stop, Lost, FailJob, MoveOn, MoveAndStop, CanMove, L.Allowed, AfterDelete, TruthfulDelete;
    SparesIdle(s, i, x);
    if OnTimeoutDelete(s, w, answer) != s {
      AtAway(s, w, i, x);
      var j := s.processes[w].pc.attempt;
      SparesAnswer(s, j, answer, i, x);
      var m := AfterDelete(s, s.attempts[j].session.value, answer);
      SparesGoto(s, m, w, DeleteFailed(j), i, x);
      SparesGoto(s, m, w, Closing(j), i, x);
    }
  }

  lemma SparesPark(s: World, w: nat, i: nat, x: nat)
    requires Adrift(s, i, x)
    ensures Spares(s, OnPark(s, w), i, x)
  {
    hide Spares, Adrift, Goto, Stop, Lost, FailJob, MoveOn, MoveAndStop, CanMove, L.Allowed, SetRow;
    SparesIdle(s, i, x);
    if OnPark(s, w) != s {
      AtAway(s, w, i, x);
      var j := s.processes[w].pc.attempt;
      var a := s.attempts[j];
      var keep := a.reason.CancelRequested? || a.reason.WorkerError?;
      OthersSessions(s, j, i, x);
      SparesOther(s, w, j, a.(status := TerminationPending, reason := if keep then a.reason else OtherReason),
                  PhaseOf(a.kind).terminationPending, Abandoning, i, x);
    }
  }

  /** A search by the key of another row does not find the session. */
  lemma SparesSwept(s: World, j: nat, sweep: SweepAnswer, i: nat, x: nat)
    requires Inv(s) && Adrift(s, i, x) && j < |s.attempts| && j != i && TruthfulSweep(s, s.attempts[j].key, sweep)
    ensures
      var m := AfterSweep(s, sweep);
      Spares(s, m, i, x) && m.processes == s.processes && |m.attempts| == |s.attempts|
    ensures forall b: Attempt :: b.session == s.attempts[j].session ==> Spares(s, SetRow(AfterSweep(s, sweep), j, b), i, x)
  {
    KeysDiffer(s, j, i, x);
    hide Inv, Away, Owning;
  }

  lemma SparesSweepTag(s: World, w: nat, sweep: SweepAnswer, i: nat, x: nat)
    requires Inv(s) && Adrift(s, i, x)
    ensures Spares(s, OnSweepTag(s, w, sweep), i, x)
  {
    hide Inv, Spares, Adrift, Goto, Stop, AfterSweep, SetRow, TruthfulSweep;
    SparesIdle(s, i, x);
    if OnSweepTag(s, w, sweep) != s {
      AtAway(s, w, i, x);
      var j := s.processes[w].pc.attempt;
      SparesSwept(s, j, sweep, i, x);
      SparesGoto(s, AfterSweep(s, sweep), w, Closing(j), i, x);
      SparesEnd(s, SetRow(AfterSweep(s, sweep), j, s.attempts[j].(reason := OtherReason)), w, i, x);
    }
  }

  lemma SparesCloseOut(s: World, w: nat, expired: bool, i: nat, x: nat)
    requires Adrift(s, i, x)
    ensures Spares(s, OnCloseOut(s, w, expired), i, x)
  {
    hide Spares, Adrift, Goto, Stop, Lost, FailJob, MoveOn, MoveAndStop, CanMove, L.Allowed, SetRow;
    SparesIdle(s, i, x);
    if OnCloseOut(s, w, expired) != s {
      AtAway(s, w, i, x);
      var j := s.processes[w].pc.attempt;
      var a := s.attempts[j];
      var phase := PhaseOf(a.kind);
      OthersSessions(s, j, i, x);
      SparesOther(s, w, j, SessionModel.Closed(a, Cancelled).(reason := NoReason), phase.cancelled, Abandoning, i, x);
      SparesOther(s, w, j, SessionModel.Closed(a, Failed).(reason := NoReason), phase.failed, Abandoning, i, x);
      SparesOther(s, w, j, SessionModel.Closed(a, TimedOut).(reason := NoReason), phase.timedOut, Abandoning, i, x);
    }
  }

  lemma SparesTerminateOne(s: World, w: nat, answer: DeleteAnswer, sweep: SweepAnswer, i: nat, x: nat)
    requires Inv(s) && Adrift(s, i, x)
    ensures Spares(s, OnTerminateOne(s, w, answer, sweep), i, x)
  {
    hide Inv, Spares, Adrift, Goto, AfterSweep, AfterDelete, SetRow, TruthfulSweep, TruthfulDelete;
    SparesIdle(s, i, x);
    if OnTerminateOne(s, w, answer, sweep) != s {
      AtAway(s, w, i, x);
      var Terminating(todo, closed, parked) := s.processes[w].pc;
      assert todo == [todo[0]] + todo[1..];
      var j := todo[0];
      var ended, kept := Terminating(todo[1..], closed + {j}, parked), Terminating(todo[1..], closed, parked + {j});
      SparesGoto(s, s, w, ended, i, x);
      SparesGoto(s, s, w, kept, i, x);
      if s.attempts[j].session.Some? {
        SparesAnswer(s, j, answer, i, x);
        SparesGoto(s, AfterDelete(s, s.attempts[j].session.value, answer), w, ended, i, x);
      } else if s.attempts[j].sent {
        SparesSwept(s, j, sweep, i, x);
        SparesGoto(s, AfterSweep(s, sweep), w, ended, i, x);
        SparesGoto(s, AfterSweep(s, sweep), w, kept, i, x);
      }
    }
  }

  lemma SparesTwice(s: World, first: set<nat>, f: Attempt -> Attempt, second: set<nat>, g: Attempt -> Attempt, i: nat, x: nat)
    requires Adrift(s, i, x) && i !in first && i !in second
    requires forall a: Attempt :: f(a).session == a.session && g(a).session == a.session
    ensures Spares(s, s.(attempts := Rewrite(Rewrite(s.attempts, first, f), second, g)), i, x)
  {
    hide Away, Owning;
  }

  lemma SparesTerminateCommit(s: World, w: nat, i: nat, x: nat)
    requires Adrift(s, i, x)
    ensures Spares(s, OnTerminateCommit(s, w), i, x)
  {
    hide Spares, Adrift, Goto, Stop, Lost, FailJob, MoveOn, MoveAndStop, CanMove, L.Allowed, Rewrite;
    SparesIdle(s, i, x);
    if OnTerminateCommit(s, w) != s {
      AtAway(s, w, i, x);
      var Terminating(_, closed, parked) := s.processes[w].pc;
      SparesTwice(s, parked, CancelParked, closed, TerminationConfirmed, i, x);
      var ended := s.(attempts := Rewrite(Rewrite(s.attempts, parked, CancelParked), closed, TerminationConfirmed));
      SparesEnd(s, ended, w, i, x);
      SparesMove(s, ended, w, L.PhaseForState(s.processes[w].mem).cancelled, Abandoning, i, x);
    }
  }

  lemma ReadingOnIsAway(candidates: seq<nat>, todo: seq<nat>, found: seq<(nat, bool)>, i: nat, x: nat)
    requires todo != [] && Away(Rereading(candidates, todo, found), i, x)
    ensures todo[0] != i && Away(Rereading(candidates, todo[1..], found), i, x)
    ensures forall valid :: Away(Rereading(candidates, todo[1..], found + [(todo[0], valid)]), i, x)
  {
    assert todo == [todo[0]] + todo[1..];
  }

  lemma SparesReread(s: World, w: nat, got: GetAnswer, i: nat, x: nat)
    requires Adrift(s, i, x)
    ensures Spares(s, OnReread(s, w, got), i, x)
  {
    hide Spares, Adrift, Goto, Stop, Lost, FailJob, MoveOn, MoveAndStop, CanMove, L.Allowed, SetRow, TruthfulGet;
    SparesIdle(s, i, x);
    if OnReread(s, w, got) != s {
      AtAway(s, w, i, x);
      var Rereading(candidates, todo, found) := s.processes[w].pc;
      var j := todo[0];
      ReadingOnIsAway(candidates, todo, found, i, x);
      hide Away, Names;
      OthersSessions(s, j, i, x);
      var on := Rereading(candidates, todo[1..], found);
      match got
      case GetError => SparesOther(s, w, j, s.attempts[j].(reason := OtherReason), s.state, on, i, x);
      case GetNotFound => SparesOther(s, w, j, s.attempts[j].(reason := NoOutput(true)), s.state, on, i, x);
      case Snapshot(_, _, _, valid) =>
        SparesOther(s, w, j, s.attempts[j].(reason := NoOutput(false)), s.state, on, i, x);
        SparesGoto(s, s, w, Rereading(candidates, todo[1..], found + [(j, valid)]), i, x);
    }
  }

  lemma SparesIngested(s: World, others: set<nat>, j: nat, b: Attempt, i: nat, x: nat)
    requires Adrift(s, i, x) && i !in others && j < |s.attempts| && j != i && b.session == s.attempts[j].session
    ensures
      var m := SetRow(s.(attempts := Rewrite(s.attempts, others, Superseded)), j, b);
      Spares(s, m, i, x) && OnlyRows(s, m)
  {
    hide Away, Owning;
  }

  lemma SparesIngest(s: World, w: nat, i: nat, x: nat)
    requires Adrift(s, i, x)
    ensures Spares(s, OnIngest(s, w), i, x)
  {
    hide Spares, Adrift, Goto, Stop, Lost, FailJob, MoveOn, MoveAndStop, CanMove, L.Allowed, SetRow, Rewrite, Chosen;
    SparesIdle(s, i, x);
    if OnIngest(s, w) != s {
      AtAway(s, w, i, x);
      var Rereading(candidates, _, found) := s.processes[w].pc;
      SparesEnd(s, s, w, i, x);
      if found != [] {
        var j := Chosen(found);
        var others := set k <- candidates | k != j;
        SparesIngested(s, others, j, s.attempts[j].(status := Running, reason := NoReason), i, x);
        var m := SetRow(s.(attempts := Rewrite(s.attempts, others, Superseded)), j, s.attempts[j].(status := Running, reason := NoReason));
        SparesGoto(s, m, w, Settled(j, S.Finished, true), i, x);
        SparesMove(s, m, w, L.Triaging, Settled(j, S.Finished, true), i, x);
      }
    }
  }

  lemma SparesAbandon(s: World, w: nat, i: nat, x: nat)
    requires Adrift(s, i, x)
    ensures Spares(s, OnAbandon(s, w), i, x)
  {
    hide Spares, Adrift, Goto, Stop, Lost, FailJob, MoveOn, MoveAndStop, CanMove, L.Allowed, Rewrite;
    SparesIdle(s, i, x);
    if OnAbandon(s, w) != s {
      AtAway(s, w, i, x);
      var unsent := set j | 0 <= j < |s.attempts| && Active(s.attempts[j]) && !s.attempts[j].sent;
      OwnersAreOthers(s, i, x);
      SparesRewrite(s, unsent, CancelledRow, i, x);
      SparesEnd(s, s.(attempts := Rewrite(s.attempts, unsent, CancelledRow)), w, i, x);
    }
  }

  lemma SparesDeleteOrphan(s: World, w: nat, answer: DeleteAnswer, i: nat, x: nat)
    requires Adrift(s, i, x) && !Ends(s, DeleteOrphan(w, answer), x)
    ensures Spares(s, OnDeleteOrphan(s, w, answer), i, x)
  {
    hide Spares, Adrift, Lost, TruthfulDelete;
    SparesIdle(s, i, x);
    if OnDeleteOrphan(s, w, answer) != s {
      var y := s.processes[w].pc.sid;
      if answer.Deleted? { SparesDelete(s, {y}, i, x); }
      SparesEnd(s, AfterDelete(s, y, answer), w, i, x);
    }
  }

  lemma SparesRemote(s: World, e: Event, i: nat, x: nat)
    requires Adrift(s, i, x) && (e.RemoteStops? || e.RemoteVanishes?) && !Ends(s, e, x)
    ensures Spares(s, Effect(s, e), i, x)
  {
    hide Away, Owning;
  }

  // ------------------------------------------------------------------ every step

  lemma EarlySpares(s: World, e: Event, i: nat, x: nat)
    requires Inv(s) && Adrift(s, i, x) && !Ends(s, e, x) && Early(e)
    ensures Spares(s, Effect(s, e), i, x)
  {
    hide Inv, Spares, Adrift, Ends;
    hide OnClaim, OnOperatorReconcile, OnRemoteStops, OnOperatorCancel, OnOperatorRetry,
      OnApprovalMove, OnEvaluate, OnAdmit, OnDispatch, OnPipelineMove, OnPipelineFail, OnEnter,
      OnSettleStep, OnSettleDeleted, OnSettleCommit, OnInsert, OnBuild, OnSendPost, OnAttach,
      OnDeleteOrphan, OnRecordRefusal, OnRecordUnknown, OnStartReconcile, OnSearch,
      OnBlockUnmatched, OnPollCheck, OnPollAnswer, OnRecordLost, OnSettleOutcome, OnFinish,
      OnTimeoutGet, OnTimeoutDelete, OnPark, OnSweepTag, OnCloseOut, OnTerminateOne,
      OnTerminateCommit, OnReread, OnIngest, OnAbandon;
    match e
    case RemoteStops(_) => SparesRemote(s, e, i, x);
    case RemoteVanishes(_) => SparesRemote(s, e, i, x);
    case Evaluate(w) => SparesEvaluate(s, w, i, x);
    case Admit(w, eligible) => SparesAdmit(s, w, eligible, i, x);
    case Dispatch(w, pick) => SparesDispatch(s, w, pick, i, x);
    case PipelineMove(w, to, flagged) => SparesPipelineMove(s, w, to, flagged, i, x);
    case PipelineFail(w) => SparesPipelineFail(s, w, i, x);
    case Enter(w, granted) => SparesEnter(s, w, granted, i, x);
    case SettleStep(w, got) => SparesSettleStep(s, w, got, i, x);
    case SettleDeleted(w, answer) => SparesSettleDeleted(s, w, answer, i, x);
    case SettleCommit(w) => SparesSettleCommit(s, w, i, x);
    case Attach(w) => SparesAttach(s, w, i, x);
    case DeleteOrphan(w, answer) => SparesDeleteOrphan(s, w, answer, i, x);
    case RecordRefusal(w) => SparesRefusal(s, w, i, x);
    case RecordUnknown(w) => SparesUnknown(s, w, i, x);
    case StartReconcile(w) => SparesStartReconcile(s, w, i, x);
    case ClaimCase(_) => SparesArrival(s, e, i, x);
    case OperatorReconcile(_) => SparesArrival(s, e, i, x);
    case Crash(_) => SparesArrival(s, e, i, x);
    case _ => SparesAround(s, e, i, x);
  }

  lemma LateSpares(s: World, e: Event, i: nat, x: nat)
    requires Inv(s) && Adrift(s, i, x) && !Early(e)
    ensures Spares(s, Effect(s, e), i, x)
  {
    hide Inv, Spares, Adrift;
    hide OnClaim, OnOperatorReconcile, OnRemoteStops, OnOperatorCancel, OnOperatorRetry,
      OnApprovalMove, OnEvaluate, OnAdmit, OnDispatch, OnPipelineMove, OnPipelineFail, OnEnter,
      OnSettleStep, OnSettleDeleted, OnSettleCommit, OnInsert, OnBuild, OnSendPost, OnAttach,
      OnDeleteOrphan, OnRecordRefusal, OnRecordUnknown, OnStartReconcile, OnSearch,
      OnBlockUnmatched, OnPollCheck, OnPollAnswer, OnRecordLost, OnSettleOutcome, OnFinish,
      OnTimeoutGet, OnTimeoutDelete, OnPark, OnSweepTag, OnCloseOut, OnTerminateOne,
      OnTerminateCommit, OnReread, OnIngest, OnAbandon;
    match e
    case Insert(w, h, b) => SparesInsert(s, w, h, b, i, x);
    case Build(w, ok) => SparesBuild(s, w, ok, i, x);
    case SendPost(w, posted, sid) => SparesSendPost(s, w, posted, sid, i, x);
    case Search(w, found) => SparesSearch(s, w, found, i, x);
    case BlockUnmatched(w) => SparesUnmatched(s, w, i, x);
    case PollCheck(w, expired) => SparesPollCheck(s, w, expired, i, x);
    case PollAnswer(w, got) => SparesPollAnswer(s, w, got, i, x);
    case RecordLost(w) => SparesLost(s, w, i, x);
    case SettleOutcome(w) => SparesOutcome(s, w, i, x);
    case Finish(w, valid) => SparesFinish(s, w, valid, i, x);
    case TimeoutGet(w, got) => SparesTimeoutGet(s, w, got, i, x);
    case TimeoutDelete(w, answer) => SparesTimeoutDelete(s, w, answer, i, x);
    case Park(w) => SparesPark(s, w, i, x);
    case SweepTag(w, sweep) => SparesSweepTag(s, w, sweep, i, x);
    case CloseOut(w, expired) => SparesCloseOut(s, w, expired, i, x);
    case TerminateOne(w, answer, sweep) => SparesTerminateOne(s, w, answer, sweep, i, x);
    case TerminateCommit(w) => SparesTerminateCommit(s, w, i, x);
    case Reread(w, got) => SparesReread(s, w, got, i, x);
    case Ingest(w) => SparesIngest(s, w, i, x);
    case Abandon(w) => SparesAbandon(s, w, i, x);
  }

  predicate WorksOn(s: World, x: nat) { x in s.sessions && s.sessions[x].phase == Working }

  lemma SparedStays(s: World, t: World, i: nat, x: nat)
    requires Adrift(s, i, x) && Spares(s, t, i, x)
    ensures Adrift(t, i, x) && (WorksOn(t, x) <==> WorksOn(s, x))
  {
    hide Away, Owning;
  }

  /** The end of the session takes place, and changes nothing about the row. */
  lemma EndStays(s: World, e: Event, i: nat, x: nat)
    requires Adrift(s, i, x) && Ends(s, e, x)
    ensures Adrift(Effect(s, e), i, x) && !WorksOn(Effect(s, e), x) && !Waits(s, Effect(s, e), e)
  {
    hide Adrift, Effect, Waits, WorksOn, OnDeleteOrphan, Ends;
    if e.DeleteOrphan? {
      DeleteEnds(s, e.w, e.answer, i, x);
      assert Effect(s, e) == OnDeleteOrphan(s, e.w, e.answer) by { EffectIsDelete(s, e); }
      CaseIsLeft(s, e);
    } else {
      RemoteEnds(s, e, i, x);
    }
  }

  lemma EffectIsDelete(s: World, e: Event)
    requires e.DeleteOrphan?
    ensures Effect(s, e) == OnDeleteOrphan(s, e.w, e.answer)
  {
    hide OnDeleteOrphan;
  }

  lemma CaseIsLeft(s: World, e: Event)
    requires e.DeleteOrphan? && Effect(s, e) == OnDeleteOrphan(s, e.w, e.answer)
    ensures !Waits(s, Effect(s, e), e)
  {
    hide Effect, TruthfulDelete, Delete;
  }

  lemma DeleteEnds(s: World, w: nat, answer: DeleteAnswer, i: nat, x: nat)
    requires Adrift(s, i, x) && Ends(s, DeleteOrphan(w, answer), x)
    ensures Adrift(OnDeleteOrphan(s, w, answer), i, x) && !WorksOn(OnDeleteOrphan(s, w, answer), x)
  {
    hide Adrift, WorksOn, Lost;
    var m := AfterDelete(s, x, answer);
    assert Adrift(m, i, x) && !WorksOn(m, x) by { GoneStays(s, i, x); }
    SparesIdle(m, i, x);
    SparesEnd(m, m, w, i, x);
    SparedStays(m, Lost(m, w), i, x);
  }

  lemma GoneStays(s: World, i: nat, x: nat)
    requires Adrift(s, i, x)
    ensures
      var m := s.(sessions := Delete(s.sessions, {x}));
      Adrift(m, i, x) && !WorksOn(m, x)
  {
    hide Away, Owning;
  }

  lemma RemoteEnds(s: World, e: Event, i: nat, x: nat)
    requires Adrift(s, i, x) && Ends(s, e, x) && !e.DeleteOrphan?
    ensures Adrift(Effect(s, e), i, x) && !WorksOn(Effect(s, e), x) && !Waits(s, Effect(s, e), e)
  {
    hide Away, Owning, HoldsCase;
  }

  lemma AdriftNext(s: World, e: Event, i: nat, x: nat)
    requires Inv(s) && Adrift(s, i, x)
    ensures Adrift(Next(s, e), i, x) && (WorksOn(Next(s, e), x) <==> WorksOn(s, x) && !Ends(s, e, x))
  {
    hide Inv, Adrift, Spares, Effect, Ends, Waits, Early, WorksOn;
    if Ends(s, e, x) {
      EndStays(s, e, i, x);
    } else {
      if Early(e) { EarlySpares(s, e, i, x); } else { LateSpares(s, e, i, x); }
      SparedStays(s, Effect(s, e), i, x);
    }
  }

  /** Whatever happens next, crashes and any number of workers included: a session that is adrift
      is never owned again, and works on exactly as long as none of the three ends comes. */
  lemma {:induction false} AdriftWorksOnExactly(s: World, more: seq<Event>, i: nat, x: nat)
    requires Inv(s) && Adrift(s, i, x)
    ensures Inv(Run(s, more)) && Adrift(Run(s, more), i, x)
    ensures WorksOn(Run(s, more), x) <==>
            WorksOn(s, x) && forall n | 0 <= n < |more| :: !Ends(Run(s, more[..n]), more[n], x)
  {
    hide Inv, Adrift, Next, Ends, WorksOn;
    if more != [] {
      var n := |more| - 1;
      AdriftWorksOnExactly(s, more[..n], i, x);
      assert forall m | 0 <= m < n :: more[..n][..m] == more[..m] && more[..n][m] == more[m];
      NextKeeps(Run(s, more[..n]), more[n]);
      AdriftNext(Run(s, more[..n]), more[n], i, x);
    }
  }

  // ------------------------------------------------------------------ the orphan

  /** The claim or the case is gone when the creator attaches its session. */
  ghost predicate TooLateToAttach(s: World, w: nat) {
    && w in s.processes && s.processes[w].pc.Attaching? && s.processes[w].pc.attempt < |s.attempts|
    && !CanMove(s, w, PhaseOf(s.attempts[s.processes[w].pc.attempt].kind).running)
  }

  lemma AttachOutcome(s: World, w: nat)
    requires TooLateToAttach(s, w)
    ensures
      var Attaching(i, x, created) := s.processes[w].pc;
      Next(s, Attach(w)) == Goto(SetRow(s, i, SessionModel.Closed(s.attempts[i].(createState := created, session := Some(x)), Cancelled)), w, Orphaned(x))
  {
    hide L.Allowed;
  }

  /** Beside the holder, only an operator's request may be at work, and not on a row without a session. */
  lemma RequestIsAway(s: World, p: Process, i: nat, x: nat)
    requires OperatorOk(s, p) && i < |s.attempts| && s.attempts[i].session.None?
    ensures Away(p.pc, i, x)
  {
    hide Owning;
  }

  lemma OrphanIsAdrift(s: World, w: nat)
    requires Inv(s) && Own(s, false) && TooLateToAttach(s, w)
    ensures
      var Attaching(i, x, _) := s.processes[w].pc;
      Adrift(Next(s, Attach(w)), i, x) && Inv(Next(s, Attach(w)))
  {
    hide Next, Inv, Own, OperatorOk, Away, CanMove, Owning;
    var Attaching(i, x, created) := s.processes[w].pc;
    AttachOutcome(s, w);
    NextKeeps(s, Attach(w));
    AttacherHolds(s, w);
    AtProcess(s, w, false);
    hide TooLateToAttach;
    var t := Next(s, Attach(w));
    forall j | 0 <= j < |t.attempts| && j != i ensures t.attempts[j].session != Some(x) {
      assert RowTrace(s.sessions, s.attempts[j]);
      if s.attempts[j].session == Some(x) { SameKey(s, i, j); }
    }
    forall v <- t.processes ensures Away(t.processes[v].pc, i, x) {
      if v == w { assert Away(Orphaned(x), i, x) by { OrphanedIsAway(i, x); } }
      else { OtherIsRequest(s, v, w); RequestIsAway(s, s.processes[v], i, x); }
    }
    assert !Owning(t.attempts[i]) by { CancelledLetsGo(s.attempts[i].(createState := created, session := Some(x))); }
  }

  lemma CancelledLetsGo(a: Attempt)
    ensures !Owning(SessionModel.Closed(a, Cancelled))
  {}

  lemma OrphanedIsAway(i: nat, x: nat)
    ensures Away(Orphaned(x), i, x)
  {}

  lemma SameKey(s: World, i: nat, j: nat)
    requires Inv(s) && i < |s.attempts| && j < |s.attempts| && s.attempts[i].key == s.attempts[j].key
    ensures i == j
  {}

  lemma AttacherHolds(s: World, w: nat)
    requires Own(s, false) && w in s.processes && s.processes[w].pc.Attaching?
    ensures Holder(s.processes[w])
  {
    hide Own;
    if !Holder(s.processes[w]) { AtRequest(s, w, false); }
  }

  lemma OtherIsRequest(s: World, v: nat, w: nat)
    requires Own(s, false) && v in s.processes && w in s.processes && v != w && Holder(s.processes[w])
    ensures OperatorOk(s, s.processes[v])
  {
    hide OperatorOk, ProcessOk, RowsTraced, RemoteOk, RemediationOk, SingleOwner, TriagingOk;
  }

  /** In every run with one holder of the claim at a time: once the creator of a working session
      finds its claim or its case gone, the row is cancelled and never owns the session again; and
      whatever happens from then on, the session works on exactly as long as its creator's DELETE
      does not succeed and the remote neither stops nor loses it. A crash before the DELETE, or a
      DELETE that fails, is final: nobody else ever ends the session. */
  lemma OrphanWorksOnExactly(config: Config, es: seq<Event>, w: nat, more: seq<Event>)
    requires SerialRun(config, es, false)
    requires
      var s := Run(Initial(config), es);
      TooLateToAttach(s, w) && WorksOn(s, s.processes[w].pc.sid)
    ensures
      var s := Run(Initial(config), es);
      var Attaching(i, x, _) := s.processes[w].pc;
      var orphaned := Next(s, Attach(w));
      var t := Run(orphaned, more);
      && i < |t.attempts| && !Owning(t.attempts[i]) && t.attempts[i].session == Some(x)
      && (WorksOn(t, x) <==> forall n | 0 <= n < |more| :: !Ends(Run(orphaned, more[..n]), more[n], x))
  {
    hide Inv, Own, Next, TooLateToAttach, Ends, Away, Owning, Initial;
    assert es[..|es|] == es;
    RunOwns(config, es, |es|, false);
    var s := Run(Initial(config), es);
    assert w in s.processes && s.processes[w].pc.Attaching? by { AtAttaching(s, w); }
    var Attaching(i, x, _) := s.processes[w].pc;
    OrphanIsAdrift(s, w);
    AttachKeepsWorking(s, w, x);
    AdriftWorksOnExactly(Next(s, Attach(w)), more, i, x);
  }

  lemma AtAttaching(s: World, w: nat)
    requires TooLateToAttach(s, w)
    ensures w in s.processes && s.processes[w].pc.Attaching?
  {
    hide CanMove;
  }

  lemma AttachKeepsWorking(s: World, w: nat, x: nat)
    requires TooLateToAttach(s, w)
    ensures WorksOn(Next(s, Attach(w)), x) <==> WorksOn(s, x)
  {
    hide Next, CanMove;
    AttachOutcome(s, w);
  }
}
