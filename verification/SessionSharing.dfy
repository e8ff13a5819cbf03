/** What the holder of the claim, the operators' requests beside it and the world around them do to
    each other: nothing that any of them relies on. */
module SessionSharing {
  import opened Wrappers
  import opened Tags
  import opened SessionModel
  import opened SessionProtocol
  import opened SessionSafety
  import opened SessionOwnership
  import L = Lifecycle
  import S = Status

  // ------------------------------------------------------------------ what an operator's request relies on

  /** Only process `w` moves the case while another process holds its row. */
  ghost predicate Patient(s: World, t: World, w: Option<nat>) {
    forall v <- s.processes :: w != Some(v) && HoldsCase(s.processes[v]) ==> t.state == s.state
  }

  /** A retained session stays retained as long as the case stays blocked. */
  ghost predicate Calm(s: World, t: World) {
    s.state == t.state == L.HumanBlocked ==>
      |s.attempts| <= |t.attempts| && forall i | 0 <= i < |s.attempts| && Retained(s.attempts[i]) :: Retained(t.attempts[i])
  }

  predicate RowKept(a: Attempt, b: Attempt) {
    && b.kind == a.kind && (a.session.Some? ==> b.session == a.session) && (a.finished ==> b.finished)
  }

  ghost predicate RowsKept(s: World, t: World) {
    |s.attempts| <= |t.attempts| && forall i | 0 <= i < |s.attempts| :: RowKept(s.attempts[i], t.attempts[i])
  }

  lemma OperatorStays(s: World, t: World, p: Process)
    requires OperatorOk(s, p) && !Holder(p) && RowsKept(s, t) && Calm(s, t) && (HoldsCase(p) ==> t.state == s.state)
    ensures OperatorOk(t, p)
  {
    match p.pc
    case Settled(i, _, _) => assert RowKept(s.attempts[i], t.attempts[i]);
    case Finishing(i) => assert RowKept(s.attempts[i], t.attempts[i]);
    case Rereading(_, _, _) =>
  }

  // ------------------------------------------------------------------ steps of the holder

  lemma StepsKeep(s: World, t: World, w: nat, exact: bool)
    requires Own(s, exact) && Steps(s, t, w, exact) && Calm(s, t) && TriagingOk(t) && Patient(s, t, Some(w))
    ensures Own(t, exact)
  {
    hide SingleOwner, RowsTraced, RemoteOk, RemediationOk, RowTrace, Aged, TriagingOk, OperatorOk, ProcessOk;
    FramedKeeps(s, t, Free(s, w));
    forall v <- t.processes | v != w ensures !Holder(t.processes[v]) && OperatorOk(t, t.processes[v]) {
      assert v in s.processes && t.processes[v] == s.processes[v];
      assert RowsKept(s, t) by { FramedRowsKept(s, t, Free(s, w)); }
      OperatorStays(s, t, s.processes[v]);
    }
    assert HoldersOk(t, exact) by {
      if t.processes == s.processes[w := s.processes[w].(pc := Abandoning)] { HolderAbandons(s, t, w, exact); }
    }
  }

  lemma FramedRowsKept(s: World, t: World, released: set<nat>)
    requires Framed(s, t, released)
    ensures RowsKept(s, t)
  {
    hide RowTrace, Aged, SingleOwner;
    forall i | 0 <= i < |s.attempts| ensures RowKept(s.attempts[i], t.attempts[i]) {
      assert RowStep(s.attempts[i], t.attempts[i], i in released);
    }
  }

  lemma HolderAbandons(s: World, t: World, w: nat, exact: bool)
    requires Own(s, exact) && w in s.processes && Holder(s.processes[w]) && StaysInPhase(s, t)
    ensures ProcessOk(t, s.processes[w].(pc := Abandoning), exact)
  {
    hide Own;
    AtProcess(s, w, exact);
  }

  // ------------------------------------------------------------------ steps of an operator's request

  /** What a row may become under the hands of an operator's request. */
  predicate Gentle(a: Attempt, b: Attempt) {
    && b.kind == a.kind && b.key == a.key && b.ordinal == a.ordinal && b.createState == a.createState
    && b.session == a.session && b.sent == a.sent && (a.finished ==> b.finished)
    && (Owning(b) ==> Owning(a)) && (b.status == Blocked ==> a.status == Blocked)
    && (a.status == Blocked ==> Owning(b)) && (Active(b) || b.finished)
  }

  predicate Noted(a: Attempt, b: Attempt) { b == a.(reason := b.reason, output := b.output, finished := b.finished) }

  predicate Eased(a: Attempt, b: Attempt) {
    (Active(b) ==> Active(a)) && (a.session.None? && Active(a) ==> Active(b)) && (b.reason == a.reason || Active(a))
  }

  /** A blocked case is re-read or starts to run again; a running one is finished, or fails; and in
      any other state rows only get their output. */
  ghost predicate Beside(s: World, t: World) {
    && |t.attempts| == |s.attempts| && t.sessions == s.sessions && t.posts == s.posts
    && (forall i | 0 <= i < |s.attempts| :: Gentle(s.attempts[i], t.attempts[i]))
    && TriagingOk(t)
    && (if t.state == s.state then
          forall i | 0 <= i < |s.attempts| ::
            Noted(s.attempts[i], t.attempts[i]) && (s.state == L.HumanBlocked || t.attempts[i].reason == s.attempts[i].reason)
        else if s.state == L.HumanBlocked then t.state == L.Triaging
        else
          && s.state == L.Triaging
          && t.state in {L.AwaitingRemediationApproval, L.Failed, L.TerminationPending}
          && forall i | 0 <= i < |s.attempts| :: Eased(s.attempts[i], t.attempts[i]))
  }

  lemma BesideRows(s: World, t: World, p: Process, exact: bool)
    requires RowPcOk(s, p, exact) && Beside(s, t) && (s.state == L.HumanBlocked ==> RowOf(p.pc).None?)
    ensures RowPcOk(t, p, exact)
  {
    if RowOf(p.pc).Some? {
      hide RowQuiet;
      var i := RowOf(p.pc).value;
      assert Gentle(s.attempts[i], t.attempts[i]);
      QuietSame(s, t, i);
      assert Active(s.attempts[i]) && s.attempts[i].session.None? ==> Active(t.attempts[i]);
    }
  }

  lemma BesidePoint(s: World, t: World, p: Process, exact: bool)
    requires PcOk(s, p, exact) && Beside(s, t)
    requires p.mem == L.TerminationPending && !p.pc.Abandoning? ==> s.state == L.TerminationPending || s.state == L.Cancelled
    requires L.InRemediation(p.mem) ==> L.InRemediation(s.state)
    requires s.state == L.HumanBlocked ==> AtBlockedCase(p)
    ensures PcOk(t, p, exact)
  {
    hide RowQuiet, Active, SettlingOk, PlanFresh, TerminatingOk;
    match p.pc
    case Entered(k) =>
      if p.mem == L.TerminationPending {
        var i :| 0 <= i < |s.attempts| && s.attempts[i].kind == k && s.attempts[i].status == TerminationPending;
        assert Noted(s.attempts[i], t.attempts[i]) && t.attempts[i] in t.attempts;
      }
    case Settling(k, n, todo, closed) => BesideSettling(s, t, k, todo, closed); BesideFresh(s, t, k, n);
    case SettleDelete(k, n, todo, closed) =>
      BesideSettling(s, t, k, todo, closed);
      BesideFresh(s, t, k, n);
      assert Gentle(s.attempts[todo[0]], t.attempts[todo[0]]);
    case Inserting(k, n) =>
      BesideFresh(s, t, k, n);
      forall a <- t.attempts ensures a.kind == k ==> !Owning(a) {
        var i :| 0 <= i < |t.attempts| && t.attempts[i] == a;
        assert Gentle(s.attempts[i], t.attempts[i]) && s.attempts[i] in s.attempts;
      }
    case Terminating(todo, closed, parked) =>
      assert t.state == s.state;
      BesideTermination(s, t, todo, closed, parked, exact);
    case Rereading(candidates, todo, found) => BesideReading(s, t, candidates);
    case _ =>
  }

  lemma BesideTermination(s: World, t: World, todo: seq<nat>, closed: set<nat>, parked: set<nat>, exact: bool)
    requires TerminatingOk(s, todo, closed, parked, exact) && Beside(s, t) && t.state == s.state
    ensures TerminatingOk(t, todo, closed, parked, exact)
  {
    hide RowQuiet;
    forall i <- closed | exact ensures RowQuiet(t, i) {
      assert Gentle(s.attempts[i], t.attempts[i]);
      QuietSame(s, t, i);
    }
    forall i | 0 <= i < |t.attempts| ensures Owning(t.attempts[i]) == Owning(s.attempts[i]) {
      assert Noted(s.attempts[i], t.attempts[i]);
    }
  }

  lemma BesideReading(s: World, t: World, candidates: seq<nat>)
    requires Beside(s, t)
    requires s.state == L.HumanBlocked ==> forall i <- candidates :: i < |s.attempts| && Retained(s.attempts[i])
    ensures t.state == L.HumanBlocked ==> forall i <- candidates :: i < |t.attempts| && Retained(t.attempts[i])
  {
    if t.state == L.HumanBlocked {
      forall i <- candidates ensures i < |t.attempts| && Retained(t.attempts[i]) {
        assert Noted(s.attempts[i], t.attempts[i]);
      }
    }
  }

  lemma BesideFresh(s: World, t: World, kind: Kind, ordinal: nat)
    requires PlanFresh(s, kind, ordinal) && Beside(s, t)
    ensures PlanFresh(t, kind, ordinal)
  {
    forall a <- t.attempts ensures a.kind == kind ==> a.ordinal < ordinal {
      var i :| 0 <= i < |t.attempts| && t.attempts[i] == a;
      assert Gentle(s.attempts[i], t.attempts[i]) && s.attempts[i] in s.attempts;
    }
  }

  lemma BesideSettling(s: World, t: World, kind: Kind, todo: seq<nat>, closed: set<nat>)
    requires SettlingOk(s, kind, todo, closed) && Beside(s, t) && s.state != L.HumanBlocked
    ensures SettlingOk(t, kind, todo, closed)
  {
    forall i | 0 <= i < |t.attempts|
      ensures t.attempts[i].kind == s.attempts[i].kind && (Owning(t.attempts[i]) ==> Owning(s.attempts[i]))
      ensures ActiveOf(t.attempts[i], kind) ==> ActiveOf(s.attempts[i], kind)
    {
      assert Gentle(s.attempts[i], t.attempts[i]);
      assert Noted(s.attempts[i], t.attempts[i]) || Eased(s.attempts[i], t.attempts[i]);
    }
    forall i <- closed ensures GivenUp(t, t.attempts[i]) {
      assert Gentle(s.attempts[i], t.attempts[i]) && GivenUp(s, s.attempts[i]) && !ActiveOf(s.attempts[i], kind);
      assert t.attempts[i].reason == s.attempts[i].reason;
    }
  }

  /** The holder does not notice the step of an operator's request. */
  lemma HolderBeside(s: World, t: World, p: Process, exact: bool)
    requires ProcessOk(s, p, exact) && Beside(s, t)
    ensures ProcessOk(t, p, exact)
  {
    assert RowPcOk(t, p, exact) && PcOk(t, p, exact) by {
      hide RowPcOk, PcOk, Beside;
      BesideRows(s, t, p, exact);
      BesidePoint(s, t, p, exact);
    }
    hide RowPcOk, PcOk, Gentle, Eased, Noted;
  }

  lemma BesideData(s: World, t: World)
    requires SingleOwner(s) && RowsTraced(s) && RemoteOk(s) && RemediationOk(s) && Beside(s, t)
    ensures SingleOwner(t) && RowsTraced(t) && RemoteOk(t) && RemediationOk(t) && RowsKept(s, t) && Calm(s, t)
  {
    forall i | 0 <= i < |s.attempts|
      ensures RowTrace(t.sessions, t.attempts[i]) && RowKept(s.attempts[i], t.attempts[i])
      ensures t.attempts[i].kind == s.attempts[i].kind && (Owning(t.attempts[i]) ==> Owning(s.attempts[i]))
    {
      assert Gentle(s.attempts[i], t.attempts[i]) && RowTrace(s.sessions, s.attempts[i]);
    }
    assert RemoteOk(t) by { SameRemote(s, t); }
    forall a <- t.attempts ensures a.kind == Remediation ==> L.InRemediation(t.state) {
      var i :| 0 <= i < |t.attempts| && t.attempts[i] == a;
      assert s.attempts[i] in s.attempts;
    }
    forall i | 0 <= i < |s.attempts| && s.state == t.state == L.HumanBlocked && Retained(s.attempts[i])
      ensures Retained(t.attempts[i])
    {
      assert Noted(s.attempts[i], t.attempts[i]);
    }
  }

  lemma SameRemote(s: World, t: World)
    requires RemoteOk(s) && t.sessions == s.sessions && t.posts == s.posts
    ensures RemoteOk(t)
  {}

  /** A step of the request at `w`, which then is over or goes on as a request. */
  ghost predicate Assists(s: World, t: World, w: nat) {
    && w in s.processes && !Holder(s.processes[w])
    && Beside(s, t)
    && (|| t.processes == s.processes - {w}
        || (w in t.processes && t.processes == s.processes[w := t.processes[w]] && !Holder(t.processes[w]) &&
            OperatorOk(t, t.processes[w])))
  }

  lemma AssistsKeep(s: World, t: World, w: nat, exact: bool)
    requires Own(s, exact) && Assists(s, t, w) && Patient(s, t, Some(w))
    ensures Own(t, exact)
  {
    BesideData(s, t);
    hide SingleOwner, RowsTraced, RemoteOk, RemediationOk, OperatorOk, ProcessOk, RowsKept, Calm;
    assert TriagingOk(t);
    hide Beside, TriagingOk;
    forall v <- t.processes | v != w
      ensures Holder(t.processes[v]) ==> ProcessOk(t, t.processes[v], exact)
      ensures !Holder(t.processes[v]) ==> OperatorOk(t, t.processes[v])
    {
      assert v in s.processes && t.processes[v] == s.processes[v];
      if Holder(s.processes[v]) { HolderBeside(s, t, s.processes[v], exact); }
      else { OperatorStays(s, t, s.processes[v]); }
    }
  }

  lemma AtRequest(s: World, w: nat, exact: bool)
    requires Own(s, exact) && w in s.processes && !Holder(s.processes[w])
    ensures OperatorOk(s, s.processes[w])
    ensures RowsTraced(s) && SingleOwner(s) && TriagingOk(s)
  {
    hide OperatorOk, RowsTraced, SingleOwner, RemoteOk, RemediationOk, TriagingOk;
  }

  lemma BesideIdle(s: World, t: World)
    requires RowsTraced(s) && TriagingOk(s) && SameData(s, t) && t.state == s.state
    ensures Beside(s, t)
  {
    forall i | 0 <= i < |s.attempts| ensures Gentle(s.attempts[i], t.attempts[i]) {
      assert RowTrace(s.sessions, s.attempts[i]);
    }
  }

  lemma StopAssists(s: World, w: nat, exact: bool)
    requires Own(s, exact) && w in s.processes && !Holder(s.processes[w])
    ensures Assists(s, Stop(s, w), w)
  {
    hide Own, Beside, OperatorOk;
    AtRequest(s, w, exact);
    BesideIdle(s, Stop(s, w));
  }

  lemma AssistsReread(s: World, w: nat, got: GetAnswer, exact: bool)
    requires Own(s, exact) && w in s.processes && !Holder(s.processes[w])
    ensures OnReread(s, w, got) == s || Assists(s, OnReread(s, w, got), w)
  {
    hide Own, Beside;
    AtRequest(s, w, exact);
    var t := OnReread(s, w, got);
    if t != s {
      var Rereading(candidates, todo, found) := s.processes[w].pc;
      assert |todo| == 1 && found == [] && todo[0] in todo;
      var i := todo[0];
      var a := s.attempts[i];
      if got.Snapshot? && got.output {
        BesideIdle(s, t);
      } else {
        var reason := t.attempts[i].reason;
        BesideReason(s, t, i, reason);
      }
    }
  }

  lemma BesideReason(s: World, t: World, i: nat, reason: Reason)
    requires RowsTraced(s) && TriagingOk(s) && i < |s.attempts| && s.state == L.HumanBlocked
    requires t == s.(attempts := s.attempts[i := s.attempts[i].(reason := reason)], processes := t.processes)
    ensures Beside(s, t)
  {
    forall j | 0 <= j < |s.attempts| ensures Gentle(s.attempts[j], t.attempts[j]) {
      assert RowTrace(s.sessions, s.attempts[j]);
    }
  }

  /** The one session that was re-read with output is ingested; nothing else is superseded. */
  lemma AssistsIngest(s: World, w: nat, exact: bool)
    requires Own(s, exact) && w in s.processes && !Holder(s.processes[w])
    ensures OnIngest(s, w) == s || Assists(s, OnIngest(s, w), w)
  {
    hide Own, Assists, MoveOn, RowsTraced, SingleOwner, TriagingOk;
    AtRequest(s, w, exact);
    var t := OnIngest(s, w);
    if t != s {
      var Rereading(candidates, todo, found) := s.processes[w].pc;
      if found == [] {
        StopAssists(s, w, exact);
      } else {
        var i := Chosen(found);
        ReadingChoice(s, candidates, found);
        assert candidates == [i];
        var others := set j <- candidates | j != i;
        assert others == {};
        IngestAssists(s, w, i);
        assert s.(attempts := Rewrite(s.attempts, others, Superseded)) == s;
      }
    }
  }

  lemma IngestAssists(s: World, w: nat, i: nat)
    requires RowsTraced(s) && SingleOwner(s) && w in s.processes && !Holder(s.processes[w]) && s.state == L.HumanBlocked
    requires s.processes[w].mem == L.HumanBlocked && i < |s.attempts| && Retained(s.attempts[i])
    ensures
      var ingested := SetRow(s, i, s.attempts[i].(status := Running, reason := NoReason));
      Assists(s, MoveOn(s, ingested, w, L.Triaging, Settled(i, S.Finished, true)), w)
  {
    hide Beside, RowsTraced, SingleOwner;
    var ingested := SetRow(s, i, s.attempts[i].(status := Running, reason := NoReason));
    IngestBeside(s, i, MoveOn(s, ingested, w, L.Triaging, Settled(i, S.Finished, true)));
  }

  lemma IngestBeside(s: World, i: nat, t: World)
    requires RowsTraced(s) && SingleOwner(s) && s.state == L.HumanBlocked && i < |s.attempts| && Retained(s.attempts[i])
    requires t.attempts == s.attempts[i := s.attempts[i].(status := Running, reason := NoReason)]
    requires t.sessions == s.sessions && t.posts == s.posts && t.state == L.Triaging
    ensures Beside(s, t)
  {
    forall j | 0 <= j < |s.attempts| ensures Gentle(s.attempts[j], t.attempts[j]) {
      assert RowTrace(s.sessions, s.attempts[j]);
    }
    OwnerIsAlone(s, i);
    forall a <- t.attempts ensures a.kind == Triage ==> a.status != Blocked {
      var j :| 0 <= j < |t.attempts| && t.attempts[j] == a;
    }
  }

  lemma AssistsOutcome(s: World, w: nat, exact: bool)
    requires Own(s, exact) && w in s.processes && !Holder(s.processes[w])
    ensures OnSettleOutcome(s, w) == s || Assists(s, OnSettleOutcome(s, w), w)
  {
    hide Own, FailJob, MoveAndStop;
    AtRequest(s, w, exact);
    var t := OnSettleOutcome(s, w);
    if t != s {
      forall j | 0 <= j < |s.attempts| ensures Gentle(s.attempts[j], t.attempts[j]) {
        assert RowTrace(s.sessions, s.attempts[j]);
      }
      forall a <- t.attempts ensures s.state == L.Triaging && a.kind == Triage ==> a.status != Blocked {
        var j :| 0 <= j < |t.attempts| && t.attempts[j] == a;
        assert s.attempts[j] in s.attempts;
      }
    }
  }

  lemma AssistsFinish(s: World, w: nat, valid: bool, exact: bool)
    requires Own(s, exact) && w in s.processes && !Holder(s.processes[w])
    ensures OnFinish(s, w, valid) == s || Assists(s, OnFinish(s, w, valid), w)
  {
    hide Own, FailJob;
    AtRequest(s, w, exact);
    if OnFinish(s, w, valid) != s {
      var i := s.processes[w].pc.attempt;
      var a := s.attempts[i];
      if !valid || !a.output {
        RequestFails(s, w, exact);
      } else if CanMove(SetRow(s, i, a.(status := Succeeded)), w, L.Triaged) {
        RequestSucceeds(s, w);
      } else {
        hide Assists;
        StopAssists(s, w, exact);
      }
    }
  }

  lemma RequestSucceeds(s: World, w: nat)
    requires RowsTraced(s) && TriagingOk(s) && w in s.processes && !Holder(s.processes[w])
    requires OperatorOk(s, s.processes[w]) && s.processes[w].pc.Finishing?
    requires
      var i := s.processes[w].pc.attempt;
      CanMove(SetRow(s, i, s.attempts[i].(status := Succeeded)), w, L.Triaged)
    ensures
      var i := s.processes[w].pc.attempt;
      var succeeded := SetRow(s, i, s.attempts[i].(status := Succeeded));
      Assists(s, Stop(Moved(Moved(succeeded, w, L.Triaged), w, L.AwaitingRemediationApproval), w), w)
  {
    hide L.Allowed;
    var i := s.processes[w].pc.attempt;
    var succeeded := SetRow(s, i, s.attempts[i].(status := Succeeded));
    assert s.attempts[i] in s.attempts;
    forall j | 0 <= j < |s.attempts| ensures Gentle(s.attempts[j], succeeded.attempts[j]) {
      assert RowTrace(s.sessions, s.attempts[j]);
    }
  }

  lemma RequestFails(s: World, w: nat, exact: bool)
    requires Own(s, exact) && w in s.processes && !Holder(s.processes[w]) && s.processes[w].pc.Finishing?
    requires s.processes[w].pc.attempt < |s.attempts|
    ensures
      var i := s.processes[w].pc.attempt;
      var a := s.attempts[i];
      Assists(s, FailJob(s, SetRow(s, i, a.(status := Failed, output := false)), w), w)
  {
    hide Own;
    AtRequest(s, w, exact);
    var i := s.processes[w].pc.attempt;
    var changed := SetRow(s, i, s.attempts[i].(status := Failed, output := false));
    var t := FailJob(s, changed, w);
    FailsOrStops(s, w);
    hide FailJob;
    if t.state == s.state {
      hide Assists;
      StopAssists(s, w, exact);
    } else {
      FailureBeside(s, w, t);
      hide Beside;
    }
  }

  /** A request either fails the running case or is rolled back and over. */
  lemma FailsOrStops(s: World, w: nat)
    requires w in s.processes && !Holder(s.processes[w]) && s.processes[w].mem == L.Triaging
    requires s.processes[w].pc.Finishing? && s.processes[w].pc.attempt < |s.attempts|
    ensures
      var i := s.processes[w].pc.attempt;
      var t := FailJob(s, SetRow(s, i, s.attempts[i].(status := Failed, output := false)), w);
      t.processes == s.processes - {w} && (t.state == s.state ==> t == Stop(s, w))
  {
    hide L.Allowed, LiveRows, Rewrite;
  }

  lemma FailureBeside(s: World, w: nat, t: World)
    requires RowsTraced(s) && TriagingOk(s) && w in s.processes && OperatorOk(s, s.processes[w]) && s.processes[w].pc.Finishing?
    requires
      var i := s.processes[w].pc.attempt;
      t == FailJob(s, SetRow(s, i, s.attempts[i].(status := Failed, output := false)), w)
    requires t.state != s.state
    ensures Beside(s, t)
  {
    hide FailJob, L.Allowed;
    assert s.attempts[s.processes[w].pc.attempt] in s.attempts;
    forall j | 0 <= j < |s.attempts|
      ensures Gentle(s.attempts[j], t.attempts[j]) && Eased(s.attempts[j], t.attempts[j])
    {
      assert RowTrace(s.sessions, s.attempts[j]) && s.attempts[j] in s.attempts;
    }
  }

  // ------------------------------------------------------------------ scheduler, environment, operator

  predicate Acknowledges(a: Attempt, b: Attempt) { b == a || b == Acked(a) }

  /** The world around the process changes: the remote ages, the case moves, rows are acknowledged. */
  ghost predicate Around(s: World, t: World) {
    && t.processes == s.processes && t.posts == s.posts
    && |t.attempts| == |s.attempts|
    && (forall i | 0 <= i < |s.attempts| :: Acknowledges(s.attempts[i], t.attempts[i]))
    && SessionsAge(s.sessions, t.sessions)
    && StaysInPhase(s, t)
    && (t.state == L.HumanBlocked || t.state == L.Triaging ==> t.state == s.state)
    && (s.state == L.TerminationPending || s.state == L.Cancelled ==> t.state == s.state || t.state == L.Cancelled)
  }

  lemma QuietAges(s: World, t: World, i: nat)
    requires Around(s, t) && i < |s.attempts| && RowQuiet(s, i)
    ensures RowQuiet(t, i)
  {
    hide L.InRemediation;
    assert Acknowledges(s.attempts[i], t.attempts[i]);
    forall x <- t.sessions ensures t.sessions[x].tag == t.attempts[i].key ==> t.sessions[x].phase != Working {
      assert Aged(s.sessions[x], t.sessions[x]);
    }
  }

  lemma RowPcAround(s: World, t: World, p: Process, exact: bool)
    requires RowPcOk(s, p, exact) && Around(s, t)
    ensures RowPcOk(t, p, exact)
  {
    hide RowQuiet, L.InRemediation;
    if RowOf(p.pc).Some? {
      var i := RowOf(p.pc).value;
      assert Acknowledges(s.attempts[i], t.attempts[i]);
      if RowQuiet(s, i) { QuietAges(s, t, i); }
      MineAround(s, t, i);
      if p.pc.Attaching? { assert Aged(s.sessions[p.pc.sid], t.sessions[p.pc.sid]); }
    }
  }

  lemma MineAround(s: World, t: World, i: nat)
    requires i < |s.attempts| && Mine(s, i) && Around(s, t)
    ensures Mine(t, i)
  {
    hide L.InRemediation;
    forall j | 0 <= j < |t.attempts| ensures Owning(t.attempts[j]) == Owning(s.attempts[j]) && t.attempts[j].kind == s.attempts[j].kind {
      assert Acknowledges(s.attempts[j], t.attempts[j]);
    }
    assert Acknowledges(s.attempts[i], t.attempts[i]);
  }

  lemma PcAround(s: World, t: World, p: Process, exact: bool)
    requires PcOk(s, p, exact) && Around(s, t)
    ensures PcOk(t, p, exact)
  {
    hide RowQuiet, L.InRemediation, SettlingOk, PlanFresh, TerminatingOk;
    match p.pc
    case Entered(k) =>
      if p.mem == L.TerminationPending {
        var i :| 0 <= i < |s.attempts| && s.attempts[i].kind == k && s.attempts[i].status == TerminationPending;
        assert Acknowledges(s.attempts[i], t.attempts[i]) && t.attempts[i] in t.attempts;
      }
    case Settling(k, n, todo, closed) => SettlingAround(s, t, k, todo, closed); FreshAround(s, t, k, n);
    case SettleDelete(k, n, todo, closed) =>
      SettlingAround(s, t, k, todo, closed);
      FreshAround(s, t, k, n);
      assert Acknowledges(s.attempts[todo[0]], t.attempts[todo[0]]);
    case Inserting(k, n) =>
      FreshAround(s, t, k, n);
      forall a <- t.attempts ensures a.kind == k ==> !Owning(a) {
        var i :| 0 <= i < |t.attempts| && t.attempts[i] == a;
        assert Acknowledges(s.attempts[i], t.attempts[i]) && s.attempts[i] in s.attempts;
      }
    case Terminating(todo, closed, parked) => TerminatingAround(s, t, todo, closed, parked, exact);
    case Rereading(candidates, todo, found) =>
      if t.state == L.HumanBlocked {
        forall i <- candidates ensures Retained(t.attempts[i]) {
          assert Acknowledges(s.attempts[i], t.attempts[i]);
        }
      }
    case _ =>
  }

  lemma TerminatingAround(s: World, t: World, todo: seq<nat>, closed: set<nat>, parked: set<nat>, exact: bool)
    requires TerminatingOk(s, todo, closed, parked, exact) && Around(s, t)
    ensures TerminatingOk(t, todo, closed, parked, exact)
  {
    hide RowQuiet, L.InRemediation;
    forall i <- closed | exact ensures RowQuiet(t, i) { QuietAges(s, t, i); }
    forall i | 0 <= i < |t.attempts| ensures Owning(t.attempts[i]) == Owning(s.attempts[i]) {
      assert Acknowledges(s.attempts[i], t.attempts[i]);
    }
  }

  lemma FreshAround(s: World, t: World, kind: Kind, ordinal: nat)
    requires PlanFresh(s, kind, ordinal) && Around(s, t)
    ensures PlanFresh(t, kind, ordinal)
  {
    hide L.InRemediation;
    forall a <- t.attempts ensures a.kind == kind ==> a.ordinal < ordinal {
      var i :| 0 <= i < |t.attempts| && t.attempts[i] == a;
      assert Acknowledges(s.attempts[i], t.attempts[i]) && s.attempts[i] in s.attempts;
    }
  }

  lemma SettlingAround(s: World, t: World, kind: Kind, todo: seq<nat>, closed: set<nat>)
    requires SettlingOk(s, kind, todo, closed) && Around(s, t)
    ensures SettlingOk(t, kind, todo, closed)
  {
    hide L.InRemediation;
    forall i | 0 <= i < |t.attempts|
      ensures t.attempts[i].kind == s.attempts[i].kind && Owning(t.attempts[i]) == Owning(s.attempts[i])
      ensures Active(t.attempts[i]) == Active(s.attempts[i])
      ensures GivenUp(s, s.attempts[i]) ==> GivenUp(t, t.attempts[i])
    {
      assert Acknowledges(s.attempts[i], t.attempts[i]);
      var a := s.attempts[i];
      if a.session.Some? && a.session.value in s.sessions {
        assert Aged(s.sessions[a.session.value], t.sessions[a.session.value]);
      }
    }
  }

  lemma AroundFramed(s: World, t: World)
    requires RowsTraced(s) && Around(s, t)
    ensures Framed(s, t, {}) && RowsKept(s, t) && Calm(s, t)
    ensures TriagingOk(s) ==> TriagingOk(t)
  {
    hide L.InRemediation;
    forall i | 0 <= i < |s.attempts|
      ensures RowStep(s.attempts[i], t.attempts[i], false) && RowTrace(t.sessions, t.attempts[i])
      ensures RowKept(s.attempts[i], t.attempts[i]) && Owning(t.attempts[i]) == Owning(s.attempts[i])
      ensures t.attempts[i].status == s.attempts[i].status && Retained(t.attempts[i]) == Retained(s.attempts[i])
    {
      assert Acknowledges(s.attempts[i], t.attempts[i]) && RowTrace(s.sessions, s.attempts[i]);
      var a := s.attempts[i];
      if a.session.Some? { assert Aged(s.sessions[a.session.value], t.sessions[a.session.value]); }
    }
    forall a <- t.attempts ensures TriagingOk(s) && t.state == L.Triaging && a.kind == Triage ==> a.status != Blocked {
      var i :| 0 <= i < |t.attempts| && t.attempts[i] == a;
      assert s.attempts[i] in s.attempts;
    }
  }

  lemma HolderAround(s: World, t: World, p: Process, exact: bool)
    requires ProcessOk(s, p, exact) && Around(s, t)
    ensures ProcessOk(t, p, exact)
  {
    assert RowPcOk(t, p, exact) && PcOk(t, p, exact) by {
      hide RowPcOk, PcOk, Around;
      RowPcAround(s, t, p, exact);
      PcAround(s, t, p, exact);
    }
    hide RowPcOk, PcOk, Acknowledges, SessionsAge, L.InRemediation;
  }

  lemma AroundKeeps(s: World, t: World, exact: bool)
    requires Own(s, exact) && Around(s, t) && Patient(s, t, None)
    ensures Own(t, exact)
  {
    hide SingleOwner, RemoteOk, RemediationOk, RowsTraced, RowsKept, Calm, ProcessOk, OperatorOk, TriagingOk;
    AroundFramed(s, t);
    FramedKeeps(s, t, {});
    assert t.processes == s.processes;
    hide Framed, Around;
    forall w <- t.processes
      ensures Holder(t.processes[w]) ==> ProcessOk(t, t.processes[w], exact)
      ensures !Holder(t.processes[w]) ==> OperatorOk(t, t.processes[w])
    {
      if Holder(s.processes[w]) { HolderAround(s, t, s.processes[w], exact); }
      else { OperatorStays(s, t, s.processes[w]); }
    }
  }

  lemma AroundOperatorRetry(s: World, confirm: bool)
    requires StaysInPhase(s, OnOperatorRetry(s, confirm))
    ensures Around(s, OnOperatorRetry(s, confirm))
  {
    hide L.InRemediation, CapReached;
  }

  /** Only processes and claim differ. */
  ghost predicate SameCase(s: World, t: World) { SameData(s, t) && t.state == s.state }

  lemma SameProcess(s: World, t: World, p: Process, exact: bool)
    requires SameCase(s, t)
    ensures ProcessOk(s, p, exact) ==> ProcessOk(t, p, exact)
    ensures OperatorOk(s, p) ==> OperatorOk(t, p)
  {
    hide RowQuiet;
    assert forall i | 0 <= i < |s.attempts| :: RowQuiet(s, i) == RowQuiet(t, i) by {
      forall i | 0 <= i < |s.attempts| ensures RowQuiet(s, i) == RowQuiet(t, i) { QuietSame(s, t, i); }
    }
  }

  /** Processes come and go, nothing else changes. */
  lemma SameCaseKeeps(s: World, t: World, exact: bool)
    requires Own(s, exact) && SameCase(s, t) && OneHolder(t)
    requires forall w <- t.processes ::
               || (w in s.processes && t.processes[w] == s.processes[w])
               || (Holder(t.processes[w]) && ProcessOk(t, t.processes[w], exact))
               || (!Holder(t.processes[w]) && OperatorOk(t, t.processes[w]))
    ensures Own(t, exact)
  {
    hide ProcessOk, OperatorOk, L.InRemediation, RowTrace, Active;
    assert SingleOwner(t) && RowsTraced(t) && RemediationOk(t) && TriagingOk(t);
    assert RemoteOk(t) by { SameRemote(s, t); }
    forall w <- t.processes
      ensures Holder(t.processes[w]) ==> ProcessOk(t, t.processes[w], exact)
      ensures !Holder(t.processes[w]) ==> OperatorOk(t, t.processes[w])
    {
      if w in s.processes && t.processes[w] == s.processes[w] { SameProcess(s, t, s.processes[w], exact); }
    }
  }

  lemma ClaimKeeps(s: World, w: nat, exact: bool)
    requires Own(s, exact) && Serial(s, ClaimCase(w))
    ensures Own(OnClaim(s, w), exact)
  {
    hide Own, L.InRemediation;
    if OnClaim(s, w) != s { SameCaseKeeps(s, OnClaim(s, w), exact); }
  }

  lemma ReconcileKeeps(s: World, w: nat, exact: bool)
    requires Own(s, exact)
    ensures Own(OnOperatorReconcile(s, w), exact)
  {
    var t := OnOperatorReconcile(s, w);
    if t != s {
      assert SingleOwner(s) && OneHolder(t);
      hide Own, OneHolder;
      var rows := RetainedRows(s.attempts);
      OneRetained(s, rows);
      assert RereadingOk(t, rows, rows, []);
      SameCaseKeeps(s, t, exact);
    }
  }

  /** At most one session is retained. */
  lemma OneRetained(s: World, rows: seq<nat>)
    requires SingleOwner(s) && forall j, k | 0 <= j < k < |rows| :: rows[k] < rows[j]
    requires forall i <- rows :: i < |s.attempts| && Retained(s.attempts[i])
    ensures |rows| <= 1
  {
    if |rows| > 1 { assert rows[0] in rows && rows[1] in rows; OwnerIsAlone(s, rows[0]); }
  }

  lemma CrashKeeps(s: World, w: nat, exact: bool)
    requires Own(s, exact)
    ensures Own(s.(processes := s.processes - {w}), exact)
  {
    var t := s.(processes := s.processes - {w});
    assert OneHolder(t);
    hide Own;
    SameCaseKeeps(s, t, exact);
  }

  /** The table with one more row, of a kind that no row owns a session of. */
  lemma InsertRows(s: World, t: World, a: Attempt)
    requires SingleOwner(s) && RowsTraced(s) && RemediationOk(s) && TriagingOk(s)
    requires t.attempts == s.attempts + [a] && t.sessions == s.sessions && t.state == s.state
    requires (forall b <- s.attempts :: b.kind == a.kind ==> !Owning(b)) && RowTrace(s.sessions, a) && a.status == Running
    requires a.kind == Remediation ==> L.InRemediation(s.state)
    ensures SingleOwner(t) && RowsTraced(t) && RemediationOk(t) && TriagingOk(t) && RowsKept(s, t) && Calm(s, t)
    ensures Mine(t, |s.attempts|)
  {
    hide L.InRemediation, Active, RowTrace;
    var n := |s.attempts|;
    forall i | 0 <= i < n ensures t.attempts[i] == s.attempts[i] && t.attempts[i] in s.attempts {}
    forall i, j | 0 <= i < j < |t.attempts| && t.attempts[i].kind == t.attempts[j].kind
      ensures !(Owning(t.attempts[i]) && Owning(t.attempts[j]))
    {
      assert t.attempts[i] == s.attempts[i] && t.attempts[i] in s.attempts;
    }
    forall i | 0 <= i < |t.attempts| ensures RowTrace(t.sessions, t.attempts[i]) {
      if i < n { assert RowTrace(s.sessions, s.attempts[i]); }
    }
  }

  lemma InsertOwns(s: World, w: nat, resultHash: string, baseSha: string, exact: bool)
    requires Own(s, exact)
    ensures Own(OnInsert(s, w, resultHash, baseSha), exact)
  {
    hide Own, L.InRemediation, KeyFor, Insertable;
    var t := OnInsert(s, w, resultHash, baseSha);
    if t != s {
      if t == s.(processes := s.processes - {w}) {
        CrashKeeps(s, w, exact);
      } else {
        InserterHolds(s, w, exact);
        AtProcess(s, w, exact);
        NewRowTrace(s, t.attempts[|s.attempts|]);
        InsertRows(s, t, t.attempts[|s.attempts|]) by { AtTriaging(s, exact); }
        InsertedOwns(s, t, w, exact);
      }
    }
  }

  /** An operator's request never gets to the point of inserting or posting. */
  lemma InserterHolds(s: World, w: nat, exact: bool)
    requires Own(s, exact) && w in s.processes
    requires !s.processes[w].pc.Rereading? && !s.processes[w].pc.Settled? && !s.processes[w].pc.Finishing?
    ensures Holder(s.processes[w])
  {
    hide ProcessOk, RowsTraced, SingleOwner, RemoteOk, RemediationOk, TriagingOk;
    assert !Holder(s.processes[w]) ==> OperatorOk(s, s.processes[w]);
  }

  lemma AtTriaging(s: World, exact: bool)
    requires Own(s, exact)
    ensures TriagingOk(s) && OneHolder(s)
  {
    hide ProcessOk, OperatorOk, RowsTraced, SingleOwner, RemoteOk, RemediationOk, TriagingOk, OneHolder;
  }

  /** The holder has inserted its row and goes on with it; requests beside it do not notice. */
  lemma InsertedOwns(s: World, t: World, w: nat, exact: bool)
    requires Own(s, exact) && w in s.processes && Holder(s.processes[w]) && s.processes[w].pc.Inserting?
    requires SingleOwner(t) && RowsTraced(t) && RemediationOk(t) && TriagingOk(t) && RowsKept(s, t) && Calm(s, t)
    requires t == s.(attempts := t.attempts, inserters := t.inserters, processes := t.processes)
    requires |t.attempts| == |s.attempts| + 1 && Mine(t, |s.attempts|)
    requires t.attempts[|s.attempts|].session.None? && Active(t.attempts[|s.attempts|])
    requires t.processes == s.processes[w := s.processes[w].(pc := Building(|s.attempts|))]
    ensures Own(t, exact)
  {
    hide SingleOwner, RowsTraced, RemediationOk, TriagingOk, RowsKept, Calm, OperatorOk, RowQuiet;
    assert RemoteOk(t) by { SameRemote(s, t); }
    assert ProcessOk(s, s.processes[w], exact);
    assert ProcessOk(t, t.processes[w], exact);
    hide ProcessOk;
    forall v <- t.processes | v != w ensures !Holder(t.processes[v]) && OperatorOk(t, t.processes[v]) {
      OperatorStays(s, t, s.processes[v]);
    }
  }

  lemma NewRowTrace(s: World, a: Attempt)
    requires a.status == Running && a.session.None?
    ensures RowTrace(s.sessions, a)
  {}

  /** The process that posted goes on with its row, and with the new session if it was told of it. */
  lemma PosterOk(s: World, w: nat, posted: PostAnswer, sid: nat, exact: bool)
    requires Own(s, exact) && OnSendPost(s, w, posted, sid) != s
    ensures
      var t := OnSendPost(s, w, posted, sid);
      w in t.processes && ProcessOk(t, t.processes[w], exact)
  {
    hide Own, L.InRemediation, RowsTraced, RemoteOk, RemediationOk, SingleOwner, RowTrace, RowQuiet, Mine;
    InserterHolds(s, w, exact);
    AtProcess(s, w, exact);
    var t := OnSendPost(s, w, posted, sid);
    MineSame(s, t, s.processes[w].pc.attempt);
  }

  lemma SendPostOwns(s: World, w: nat, posted: PostAnswer, sid: nat, exact: bool)
    requires Inv(s) && Own(s, exact)
    ensures Own(OnSendPost(s, w, posted, sid), exact)
  {
    hide Own, L.InRemediation, Inv, RemoteOk, RowsTraced, SingleOwner, RemediationOk, ProcessOk, RowsKept, Calm;
    var t := OnSendPost(s, w, posted, sid);
    if t != s {
      InserterHolds(s, w, exact);
      PosterOk(s, w, posted, sid, exact);
      AtProcess(s, w, exact);
      RemoteAfterPost(s, w, posted, sid);
      RowsAfterPost(s, t);
      PostedOwns(s, t, w, exact);
    }
  }

  lemma PostedOwns(s: World, t: World, w: nat, exact: bool)
    requires Own(s, exact) && w in s.processes && Holder(s.processes[w])
    requires SingleOwner(t) && RowsTraced(t) && RemediationOk(t) && RemoteOk(t) && RowsKept(s, t) && Calm(s, t)
    requires t.attempts == s.attempts && t.state == s.state
    requires w in t.processes && t.processes == s.processes[w := t.processes[w]]
    requires Holder(t.processes[w]) && ProcessOk(t, t.processes[w], exact)
    ensures Own(t, exact)
  {
    hide ProcessOk, OperatorOk, RowsKept, Calm, RowsTraced, SingleOwner, RemoteOk, RemediationOk;
    forall v <- t.processes | v != w ensures !Holder(t.processes[v]) && OperatorOk(t, t.processes[v]) {
      OperatorStays(s, t, s.processes[v]);
    }
  }

  lemma RowsAfterPost(s: World, t: World)
    requires SingleOwner(s) && RowsTraced(s) && RemediationOk(s) && t.attempts == s.attempts && t.state == s.state
    requires forall x <- s.sessions :: x in t.sessions && t.sessions[x] == s.sessions[x]
    ensures SingleOwner(t) && RowsTraced(t) && RemediationOk(t) && RowsKept(s, t) && Calm(s, t)
  {
    hide L.InRemediation, Active;
    forall i | 0 <= i < |t.attempts| ensures RowTrace(t.sessions, t.attempts[i]) {
      assert RowTrace(s.sessions, s.attempts[i]);
    }
  }

  /** The new session, if any, is the first to carry its tag. */
  lemma RemoteAfterPost(s: World, w: nat, posted: PostAnswer, sid: nat)
    requires Inv(s) && RemoteOk(s) && w in s.processes
    ensures RemoteOk(OnSendPost(s, w, posted, sid))
  {
    hide L.InRemediation, Inv;
    var t := OnSendPost(s, w, posted, sid);
    if t != s {
      CreatorFresh(s, w);
      PostIsFirst(s, s.processes[w].pc.attempt);
      assert t.posts[|s.posts|] in t.posts;
      forall x <- t.sessions ensures Posted(t.posts, t.sessions[x].tag) {
        if x in s.sessions {
          var p :| p in s.posts && p.key == s.sessions[x].tag;
          assert p in t.posts;
        }
      }
    }
  }

  lemma CreatorFresh(s: World, w: nat)
    requires Inv(s) && w in s.processes && s.processes[w].pc.Posting?
    ensures forall k | 0 <= k < |s.posts| :: s.posts[k].attempt != s.processes[w].pc.attempt
  {
    assert CreatorOk(s, s.processes[w]);
  }
}
