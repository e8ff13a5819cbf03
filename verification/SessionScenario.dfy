/** Three concrete runs that mark the limit of the promise that whatever works is owned: an
    operator's cancel while a process is about to create a session, a crash between the commit that
    gives a session up and its DELETE, and an output that is read while its session works on. */
module SessionScenario {
  import opened Wrappers
  import opened Tags
  import opened SessionModel
  import opened SessionProtocol
  import L = Lifecycle
  import S = Status

  const CANCEL_RUN: seq<Event> := [
    ClaimCase(1), Evaluate(1), Admit(1, true), Enter(1, true), SettleCommit(1), Insert(1, "", ""),
    OperatorCancel, Build(1, true), SendPost(1, PostLost(true), 7), RecordUnknown(1), Abandon(1)]

  const KEY := OperationKey("c", Triage, 1)

  const NEW_ROW := Attempt(Triage, 1, KEY, CreateState.Pending, Running, false, None, false, false, NoReason)

  const SENT_ROW := NEW_ROW.(sent := true)

  function Start(maxAttempts: nat): World { Initial(Config("c", maxAttempts, 1, 1)) }

  function At(maxAttempts: nat, pc: Pc, mem: L.CaseState, state: L.CaseState, rows: seq<Attempt>): World {
    Start(maxAttempts).(state := state, claimedBy := Some(1), runs := 1, attempts := rows,
                        inserters := seq(|rows|, _ => 0),
                        processes := map[1 := Process(pc, mem, 0, Some(1))])
  }

  /** No other process holds the row of the case. */
  predicate Unlocked(s: World, e: Event) {
    forall v <- s.processes :: Actor(e) == Some(v) || !HoldsCase(s.processes[v])
  }

  lemma Begins(s: World, es: seq<Event>)
    ensures Run(s, es[..0]) == s
  {}

  lemma Follow(s: World, es: seq<Event>, k: nat, before: World, after: World)
    requires k < |es| && Run(s, es[..k]) == before && Effect(before, es[k]) == after && Unlocked(before, es[k])
    ensures Run(s, es[..k + 1]) == after
  {
    hide Effect;
    assert es[..k + 1][..k] == es[..k];
  }

  const INTENT := L.TriageCreateIntent

  // One lemma per event: what its handler makes of the world at hand.

  lemma Claims(m: nat)
    ensures Effect(Start(m), ClaimCase(1)) ==
            At(m, Dispatching, L.Received, L.Received, [])
    ensures Unlocked(Start(m), ClaimCase(1))
  {
    assert OnClaim(Start(m), 1).inserters == At(m, Dispatching, L.Received, L.Received, []).inserters;
  }

  lemma Evaluates(m: nat)
    ensures Effect(At(m, Dispatching, L.Received, L.Received, []), Event.Evaluate(1)) ==
            At(m, Evaluated, L.EligibilityEvaluated, L.EligibilityEvaluated, [])
    ensures Unlocked(At(m, Dispatching, L.Received, L.Received, []), Event.Evaluate(1))
  {}

  lemma Admits(m: nat)
    ensures Effect(At(m, Evaluated, L.EligibilityEvaluated, L.EligibilityEvaluated, []), Event.Admit(1, true)) ==
            At(m, Entered(Triage), INTENT, INTENT, [])
    ensures Unlocked(At(m, Evaluated, L.EligibilityEvaluated, L.EligibilityEvaluated, []), Event.Admit(1, true))
  {}

  lemma Enters(m: nat)
    requires m > 0
    ensures Effect(At(m, Entered(Triage), INTENT, INTENT, []), Event.Enter(1, true)) ==
            At(m, Settling(Triage, 1, [], {}), INTENT, INTENT, [])
    ensures Unlocked(At(m, Entered(Triage), INTENT, INTENT, []), Event.Enter(1, true))
  {
    assert NextOrdinal([], Triage) == 1;
    assert NewestActive([], Triage, 0) == None;
  }

  lemma Settles(m: nat)
    ensures Effect(At(m, Settling(Triage, 1, [], {}), INTENT, INTENT, []), SettleCommit(1)) ==
            At(m, Inserting(Triage, 1), INTENT, INTENT, [])
    ensures Unlocked(At(m, Settling(Triage, 1, [], {}), INTENT, INTENT, []), SettleCommit(1))
  {
    assert Rewrite([], {}, CancelledRow) == [];
  }

  lemma Inserts(m: nat)
    ensures Effect(At(m, Inserting(Triage, 1), INTENT, INTENT, []), Event.Insert(1, "", "")) ==
            At(m, Building(0), INTENT, INTENT, [NEW_ROW])
    ensures Unlocked(At(m, Inserting(Triage, 1), INTENT, INTENT, []), Event.Insert(1, "", ""))
  {
    var t := OnInsert(At(m, Inserting(Triage, 1), INTENT, INTENT, []), 1, "", "");
    assert t.attempts == [NEW_ROW] && t.inserters == [0] == seq(1, _ => 0);
  }

  lemma Cancels(m: nat)
    ensures Effect(At(m, Building(0), INTENT, INTENT, [NEW_ROW]), OperatorCancel) ==
            At(m, Building(0), INTENT, L.Cancelled, [NEW_ROW])
    ensures Unlocked(At(m, Building(0), INTENT, INTENT, [NEW_ROW]), OperatorCancel)
  {}

  lemma Builds(m: nat)
    ensures Effect(At(m, Building(0), INTENT, L.Cancelled, [NEW_ROW]), Event.Build(1, true)) ==
            At(m, Posting(0), INTENT, L.Cancelled, [SENT_ROW])
    ensures Unlocked(At(m, Building(0), INTENT, L.Cancelled, [NEW_ROW]), Event.Build(1, true))
  {}

  function Posted(m: nat, pc: Pc): World {
    At(m, pc, INTENT, L.Cancelled, [SENT_ROW]).(posts := [Post(0, KEY, 0)], sessions := map[7 := Session(KEY, Working)])
  }

  lemma Sends(m: nat)
    ensures Effect(At(m, Posting(0), INTENT, L.Cancelled, [SENT_ROW]), SendPost(1, PostLost(true), 7)) ==
            Posted(m, OutcomeUnknown(0))
    ensures Unlocked(At(m, Posting(0), INTENT, L.Cancelled, [SENT_ROW]), SendPost(1, PostLost(true), 7))
  {}

  lemma CannotRecord(m: nat)
    ensures Effect(Posted(m, OutcomeUnknown(0)), RecordUnknown(1)) ==
            Posted(m, Abandoning)
    ensures Unlocked(Posted(m, OutcomeUnknown(0)), RecordUnknown(1))
  {}

  lemma Abandons(m: nat)
    ensures Effect(Posted(m, Abandoning), Abandon(1)) ==
            Posted(m, Abandoning).(processes := map[], claimedBy := None)
    ensures Unlocked(Posted(m, Abandoning), Abandon(1))
  {
    var s := Posted(m, Abandoning);
    var t := OnAbandon(s, 1);
    assert t.attempts == [SENT_ROW] && t.processes == map[];
  }

  lemma RowIsInserted(m: nat)
    requires m > 0
    ensures Run(Start(m), CANCEL_RUN[..6]) == At(m, Building(0), INTENT, INTENT, [NEW_ROW])
  {
    hide Effect, Unlocked, At, Run;
    var s, es := Start(m), CANCEL_RUN;
    Begins(s, es);
    Claims(m);
    Follow(s, es, 0, s, At(m, Dispatching, L.Received, L.Received, []));
    Evaluates(m);
    Follow(s, es, 1, At(m, Dispatching, L.Received, L.Received, []), At(m, Evaluated, L.EligibilityEvaluated, L.EligibilityEvaluated, []));
    Admits(m);
    Follow(s, es, 2, At(m, Evaluated, L.EligibilityEvaluated, L.EligibilityEvaluated, []), At(m, Entered(Triage), INTENT, INTENT, []));
    Enters(m);
    Follow(s, es, 3, At(m, Entered(Triage), INTENT, INTENT, []), At(m, Settling(Triage, 1, [], {}), INTENT, INTENT, []));
    Settles(m);
    Follow(s, es, 4, At(m, Settling(Triage, 1, [], {}), INTENT, INTENT, []), At(m, Inserting(Triage, 1), INTENT, INTENT, []));
    Inserts(m);
    Follow(s, es, 5, At(m, Inserting(Triage, 1), INTENT, INTENT, []), At(m, Building(0), INTENT, INTENT, [NEW_ROW]));
  }

  lemma RunLeaks(m: nat)
    requires m > 0
    ensures Run(Start(m), CANCEL_RUN) == Posted(m, Abandoning).(processes := map[], claimedBy := None)
  {
    hide Effect, Unlocked, At, Posted, Start, Run;
    var s, es := Start(m), CANCEL_RUN;
    RowIsInserted(m);
    Cancels(m);
    Follow(s, es, 6, At(m, Building(0), INTENT, INTENT, [NEW_ROW]), At(m, Building(0), INTENT, L.Cancelled, [NEW_ROW]));
    Builds(m);
    Follow(s, es, 7, At(m, Building(0), INTENT, L.Cancelled, [NEW_ROW]), At(m, Posting(0), INTENT, L.Cancelled, [SENT_ROW]));
    Sends(m);
    Follow(s, es, 8, At(m, Posting(0), INTENT, L.Cancelled, [SENT_ROW]), Posted(m, OutcomeUnknown(0)));
    CannotRecord(m);
    Follow(s, es, 9, Posted(m, OutcomeUnknown(0)), Posted(m, Abandoning));
    Abandons(m);
    Follow(s, es, 10, Posted(m, Abandoning), Posted(m, Abandoning).(processes := map[], claimedBy := None));
    assert es[..11] == es;
  }

  /** The case is CANCELLED and nobody will claim it, but its attempt is sent and active, and its
      session works on. */
  lemma CancelDuringCreateLeaksASession(m: nat)
    requires m > 0
    ensures
      var t := Run(Start(m), CANCEL_RUN);
      && L.Terminal(t.state) && t.processes == map[] && !Claimable(t)
      && t.attempts == [SENT_ROW] && Active(SENT_ROW)
      && 7 in t.sessions && t.sessions[7] == Session(KEY, Working)
  {
    hide Run;
    RunLeaks(m);
  }

  // ------------------------------------------------------------------ the orphan

  /** The case is cancelled while the POST is answered; the creator gives the session up, and
      crashes before it asks for the DELETE; the next cancel closes the case. */
  const ORPHAN_RUN: seq<Event> := [
    ClaimCase(1), Evaluate(1), Admit(1, true), Enter(1, true), SettleCommit(1), Insert(1, "", ""),
    Build(1, true), SendPost(1, PostAccepted, 7), OperatorCancel, Attach(1), Crash(1), OperatorCancel]

  const ORPHAN_ROW := SENT_ROW.(createState := CreateState.Created, session := Some(7), status := Cancelled, finished := true)

  function Answered(m: nat, pc: Pc, state: L.CaseState, row: Attempt): World {
    At(m, pc, INTENT, state, [row]).(posts := [Post(0, KEY, 0)], sessions := map[7 := Session(KEY, Working)])
  }

  function Orphaning(m: nat, state: L.CaseState): World {
    Answered(m, Abandoning, state, ORPHAN_ROW).(processes := map[])
  }

  lemma BuildsInTime(m: nat)
    ensures Effect(At(m, Building(0), INTENT, INTENT, [NEW_ROW]), Event.Build(1, true)) ==
            At(m, Posting(0), INTENT, INTENT, [SENT_ROW])
    ensures Unlocked(At(m, Building(0), INTENT, INTENT, [NEW_ROW]), Event.Build(1, true))
  {}

  lemma IsAnswered(m: nat)
    ensures Effect(At(m, Posting(0), INTENT, INTENT, [SENT_ROW]), SendPost(1, PostAccepted, 7)) ==
            Answered(m, Attaching(0, 7, CreateState.Created), INTENT, SENT_ROW)
    ensures Unlocked(At(m, Posting(0), INTENT, INTENT, [SENT_ROW]), SendPost(1, PostAccepted, 7))
  {}

  lemma CancelWaits(m: nat)
    ensures
      var s := Answered(m, Attaching(0, 7, CreateState.Created), INTENT, SENT_ROW);
      Effect(s, OperatorCancel) == s.(state := L.TerminationPending) && Unlocked(s, OperatorCancel)
  {
    var s := Answered(m, Attaching(0, 7, CreateState.Created), INTENT, SENT_ROW);
    assert Owning(s.attempts[0]) && s.attempts[0].sent;
  }

  lemma GivesUpRows(m: nat)
    ensures OnAttach(Answered(m, Attaching(0, 7, CreateState.Created), L.TerminationPending, SENT_ROW), 1) ==
            Answered(m, Orphaned(7), L.TerminationPending, ORPHAN_ROW)
  {
    var s := Answered(m, Attaching(0, 7, CreateState.Created), L.TerminationPending, SENT_ROW);
    assert OnAttach(s, 1).attempts == [ORPHAN_ROW];
  }

  lemma GivesUp(m: nat)
    ensures
      var s := Answered(m, Attaching(0, 7, CreateState.Created), L.TerminationPending, SENT_ROW);
      Effect(s, Attach(1)) == Answered(m, Orphaned(7), L.TerminationPending, ORPHAN_ROW) && Unlocked(s, Attach(1))
  {
    hide OnAttach;
    GivesUpRows(m);
  }

  lemma CrashesFirst(m: nat)
    ensures
      var s := Answered(m, Orphaned(7), L.TerminationPending, ORPHAN_ROW);
      Effect(s, Crash(1)) == Orphaning(m, L.TerminationPending) && Unlocked(s, Crash(1))
  {}

  lemma CancelCloses(m: nat)
    ensures
      var s := Orphaning(m, L.TerminationPending);
      Effect(s, OperatorCancel) == Orphaning(m, L.Cancelled) && Unlocked(s, OperatorCancel)
  {}

  lemma RunOrphans(m: nat)
    requires m > 0
    ensures Run(Start(m), ORPHAN_RUN) == Orphaning(m, L.Cancelled)
  {
    hide Effect, Unlocked, At, Answered, Orphaning, Start, Run;
    var s, es := Start(m), ORPHAN_RUN;
    RowIsInserted(m);
    assert es[..6] == CANCEL_RUN[..6];
    BuildsInTime(m);
    Follow(s, es, 6, At(m, Building(0), INTENT, INTENT, [NEW_ROW]), At(m, Posting(0), INTENT, INTENT, [SENT_ROW]));
    IsAnswered(m);
    var attaching := Answered(m, Attaching(0, 7, CreateState.Created), INTENT, SENT_ROW);
    Follow(s, es, 7, At(m, Posting(0), INTENT, INTENT, [SENT_ROW]), attaching);
    CancelWaits(m);
    var late := Answered(m, Attaching(0, 7, CreateState.Created), L.TerminationPending, SENT_ROW);
    assert attaching.(state := L.TerminationPending) == late by { SameButState(m); }
    Follow(s, es, 8, attaching, late);
    GivesUp(m);
    var orphaned := Answered(m, Orphaned(7), L.TerminationPending, ORPHAN_ROW);
    Follow(s, es, 9, late, orphaned);
    CrashesFirst(m);
    Follow(s, es, 10, orphaned, Orphaning(m, L.TerminationPending));
    CancelCloses(m);
    Follow(s, es, 11, Orphaning(m, L.TerminationPending), Orphaning(m, L.Cancelled));
    assert es[..12] == es;
  }

  lemma SameButState(m: nat)
    ensures Answered(m, Attaching(0, 7, CreateState.Created), INTENT, SENT_ROW).(state := L.TerminationPending) ==
            Answered(m, Attaching(0, 7, CreateState.Created), L.TerminationPending, SENT_ROW)
  {}

  /** The case is CANCELLED and nobody will claim it, its one attempt is CANCELLED, and the session
      of that attempt works on although no DELETE was ever asked for. */
  lemma CrashBeforeDeleteLeavesAnOrphan(m: nat)
    requires m > 0
    ensures
      var t := Run(Start(m), ORPHAN_RUN);
      && L.Terminal(t.state) && t.processes == map[] && !Claimable(t)
      && t.attempts == [ORPHAN_ROW] && !Owning(ORPHAN_ROW) && ORPHAN_ROW.session == Some(7)
      && 7 in t.sessions && t.sessions[7] == Session(KEY, Working)
    ensures forall e <- ORPHAN_RUN :: !e.DeleteOrphan?
  {
    hide Run;
    RunOrphans(m);
  }

  // ------------------------------------------------------------------ the early reading

  const WAITS := Snapshot(S.WaitingForHuman, false, false, false)
  const RESUMED := Snapshot(S.Live, false, true, true)

  /** The session waits for a human, who answers it; the operator's request then finds output. */
  const READING_RUN: seq<Event> := [
    ClaimCase(1), Evaluate(1), Admit(1, true), Enter(1, true), SettleCommit(1), Insert(1, "", ""),
    Build(1, true), SendPost(1, PostAccepted, 7), Attach(1), PollCheck(1, false), PollAnswer(1, WAITS), SettleOutcome(1),
    OperatorReconcile(2), Reread(2, RESUMED), Ingest(2), SettleOutcome(2), Finish(2, true)]

  const BOUND_ROW := SENT_ROW.(createState := CreateState.Created, session := Some(7))

  const BLOCKED_ROW := BOUND_ROW.(status := Blocked, finished := true)

  const INGESTED_ROW := BOUND_ROW.(finished := true)

  const READ_ROW := INGESTED_ROW.(output := true)

  function Worked(m: nat, pc: Pc): World {
    Answered(m, pc, L.Triaging, BOUND_ROW).(processes := map[1 := Process(pc, L.Triaging, 0, Some(1))])
  }

  /** The claim is released; `processes` holds the operator's request. */
  function Asked(m: nat, runs: nat, processes: map<nat, Process>, state: L.CaseState, row: Attempt): World {
    Answered(m, Abandoning, state, row).(claimedBy := None, runs := runs, processes := processes)
  }

  function Request(pc: Pc, mem: L.CaseState): map<nat, Process> { map[2 := Process(pc, mem, 1, None)] }

  lemma Binds(m: nat)
    ensures
      var s := Answered(m, Attaching(0, 7, CreateState.Created), INTENT, SENT_ROW);
      Effect(s, Attach(1)) == Worked(m, Polling(0)) && Unlocked(s, Attach(1))
  {
    var s := Answered(m, Attaching(0, 7, CreateState.Created), INTENT, SENT_ROW);
    assert OnAttach(s, 1).attempts == [BOUND_ROW];
  }

  lemma Polls(m: nat)
    ensures Effect(Worked(m, Polling(0)), PollCheck(1, false)) == Worked(m, PollGet(0))
    ensures Unlocked(Worked(m, Polling(0)), PollCheck(1, false))
  {}

  lemma WaitingRows(m: nat)
    ensures OnPollAnswer(Worked(m, PollGet(0)), 1, WAITS) == Worked(m, Settled(0, S.WaitingForHuman, false))
  {
    assert OnPollAnswer(Worked(m, PollGet(0)), 1, WAITS).attempts == [BOUND_ROW];
  }

  lemma Waiting(m: nat)
    ensures Effect(Worked(m, PollGet(0)), PollAnswer(1, WAITS)) == Worked(m, Settled(0, S.WaitingForHuman, false))
    ensures Unlocked(Worked(m, PollGet(0)), PollAnswer(1, WAITS))
  {
    hide OnPollAnswer;
    WaitingRows(m);
  }

  lemma BlocksRows(m: nat)
    ensures OnSettleOutcome(Worked(m, Settled(0, S.WaitingForHuman, false)), 1) == Asked(m, 1, map[], L.HumanBlocked, BLOCKED_ROW)
  {
    var t := OnSettleOutcome(Worked(m, Settled(0, S.WaitingForHuman, false)), 1);
    assert t.attempts == [BLOCKED_ROW] && t.processes == map[];
  }

  lemma Blocks(m: nat)
    ensures
      var s := Worked(m, Settled(0, S.WaitingForHuman, false));
      Effect(s, SettleOutcome(1)) == Asked(m, 1, map[], L.HumanBlocked, BLOCKED_ROW) && Unlocked(s, SettleOutcome(1))
  {
    hide OnSettleOutcome;
    BlocksRows(m);
  }

  lemma Asks(m: nat)
    ensures
      var s := Asked(m, 1, map[], L.HumanBlocked, BLOCKED_ROW);
      && Effect(s, OperatorReconcile(2)) == Asked(m, 2, Request(Rereading([0], [0], []), L.HumanBlocked), L.HumanBlocked, BLOCKED_ROW)
      && Unlocked(s, OperatorReconcile(2))
  {
    assert Select([BLOCKED_ROW], Retained, 0) == [];
    assert RetainedRows([BLOCKED_ROW]) == [0];
  }

  lemma ReadsRows(m: nat)
    ensures OnReread(Asked(m, 2, Request(Rereading([0], [0], []), L.HumanBlocked), L.HumanBlocked, BLOCKED_ROW), 2, RESUMED) ==
            Asked(m, 2, Request(Rereading([0], [], [(0, true)]), L.HumanBlocked), L.HumanBlocked, BLOCKED_ROW)
  {
    var s := Asked(m, 2, Request(Rereading([0], [0], []), L.HumanBlocked), L.HumanBlocked, BLOCKED_ROW);
    var none: seq<(nat, bool)> := [];
    assert [0][1..] == [] && none + [(0, true)] == [(0, true)];
    assert OnReread(s, 2, RESUMED).processes == Request(Rereading([0], [], [(0, true)]), L.HumanBlocked);
  }

  lemma Reads(m: nat)
    ensures
      var s := Asked(m, 2, Request(Rereading([0], [0], []), L.HumanBlocked), L.HumanBlocked, BLOCKED_ROW);
      && Effect(s, Reread(2, RESUMED)) ==
         Asked(m, 2, Request(Rereading([0], [], [(0, true)]), L.HumanBlocked), L.HumanBlocked, BLOCKED_ROW)
      && Unlocked(s, Reread(2, RESUMED))
  {
    hide OnReread;
    ReadsRows(m);
  }

  lemma IngestsRows(m: nat)
    ensures OnIngest(Asked(m, 2, Request(Rereading([0], [], [(0, true)]), L.HumanBlocked), L.HumanBlocked, BLOCKED_ROW), 2) ==
            Asked(m, 2, Request(Settled(0, S.Finished, true), L.Triaging), L.Triaging, INGESTED_ROW)
  {
    var s := Asked(m, 2, Request(Rereading([0], [], [(0, true)]), L.HumanBlocked), L.HumanBlocked, BLOCKED_ROW);
    assert Chosen([(0, true)]) == 0;
    assert OnIngest(s, 2).attempts == [INGESTED_ROW];
  }

  lemma Ingests(m: nat)
    ensures
      var s := Asked(m, 2, Request(Rereading([0], [], [(0, true)]), L.HumanBlocked), L.HumanBlocked, BLOCKED_ROW);
      && Effect(s, Ingest(2)) == Asked(m, 2, Request(Settled(0, S.Finished, true), L.Triaging), L.Triaging, INGESTED_ROW)
      && Unlocked(s, Ingest(2))
  {
    hide OnIngest;
    IngestsRows(m);
  }

  lemma TakesOutput(m: nat)
    ensures
      var s := Asked(m, 2, Request(Settled(0, S.Finished, true), L.Triaging), L.Triaging, INGESTED_ROW);
      && Effect(s, SettleOutcome(2)) == Asked(m, 2, Request(Finishing(0), L.Triaging), L.Triaging, READ_ROW)
      && Unlocked(s, SettleOutcome(2))
  {
    var s := Asked(m, 2, Request(Settled(0, S.Finished, true), L.Triaging), L.Triaging, INGESTED_ROW);
    assert OnSettleOutcome(s, 2).attempts == [READ_ROW];
  }

  lemma SucceedsRows(m: nat)
    ensures OnFinish(Asked(m, 2, Request(Finishing(0), L.Triaging), L.Triaging, READ_ROW), 2, true) ==
            Asked(m, 2, map[], L.AwaitingRemediationApproval, READ_ROW.(status := Succeeded))
  {
    var t := OnFinish(Asked(m, 2, Request(Finishing(0), L.Triaging), L.Triaging, READ_ROW), 2, true);
    assert t.attempts == [READ_ROW.(status := Succeeded)] && t.processes == map[];
  }

  lemma Succeeds(m: nat)
    ensures
      var s := Asked(m, 2, Request(Finishing(0), L.Triaging), L.Triaging, READ_ROW);
      && Effect(s, Finish(2, true)) == Asked(m, 2, map[], L.AwaitingRemediationApproval, READ_ROW.(status := Succeeded))
      && Unlocked(s, Finish(2, true))
  {
    hide OnFinish;
    SucceedsRows(m);
  }

  lemma RunBlocks(m: nat)
    requires m > 0
    ensures Run(Start(m), READING_RUN[..12]) == Asked(m, 1, map[], L.HumanBlocked, BLOCKED_ROW)
  {
    hide Effect, Unlocked, At, Answered, Worked, Asked, Start, Run;
    var s, es := Start(m), READING_RUN;
    RowIsInserted(m);
    assert es[..6] == CANCEL_RUN[..6];
    BuildsInTime(m);
    Follow(s, es, 6, At(m, Building(0), INTENT, INTENT, [NEW_ROW]), At(m, Posting(0), INTENT, INTENT, [SENT_ROW]));
    IsAnswered(m);
    var attaching := Answered(m, Attaching(0, 7, CreateState.Created), INTENT, SENT_ROW);
    Follow(s, es, 7, At(m, Posting(0), INTENT, INTENT, [SENT_ROW]), attaching);
    Binds(m);
    Follow(s, es, 8, attaching, Worked(m, Polling(0)));
    Polls(m);
    Follow(s, es, 9, Worked(m, Polling(0)), Worked(m, PollGet(0)));
    Waiting(m);
    Follow(s, es, 10, Worked(m, PollGet(0)), Worked(m, Settled(0, S.WaitingForHuman, false)));
    Blocks(m);
    Follow(s, es, 11, Worked(m, Settled(0, S.WaitingForHuman, false)), Asked(m, 1, map[], L.HumanBlocked, BLOCKED_ROW));
  }

  lemma RunReads(m: nat)
    requires m > 0
    ensures Run(Start(m), READING_RUN) == Asked(m, 2, map[], L.AwaitingRemediationApproval, READ_ROW.(status := Succeeded))
  {
    hide Effect, Unlocked, Asked, Start, Run;
    var s, es := Start(m), READING_RUN;
    RunBlocks(m);
    var asking := Asked(m, 2, Request(Rereading([0], [0], []), L.HumanBlocked), L.HumanBlocked, BLOCKED_ROW);
    Asks(m);
    Follow(s, es, 12, Asked(m, 1, map[], L.HumanBlocked, BLOCKED_ROW), asking);
    var found := Asked(m, 2, Request(Rereading([0], [], [(0, true)]), L.HumanBlocked), L.HumanBlocked, BLOCKED_ROW);
    Reads(m);
    Follow(s, es, 13, asking, found);
    var ingested := Asked(m, 2, Request(Settled(0, S.Finished, true), L.Triaging), L.Triaging, INGESTED_ROW);
    Ingests(m);
    Follow(s, es, 14, found, ingested);
    var taken := Asked(m, 2, Request(Finishing(0), L.Triaging), L.Triaging, READ_ROW);
    TakesOutput(m);
    Follow(s, es, 15, ingested, taken);
    Succeeds(m);
    Follow(s, es, 16, taken, Asked(m, 2, map[], L.AwaitingRemediationApproval, READ_ROW.(status := Succeeded)));
    assert es[..17] == es;
  }

  /** The triage is over and its attempt has succeeded, nobody is at work on the case, and the
      session works on. */
  lemma ReadingWhileItWorksLetsGo(m: nat)
    requires m > 0
    ensures
      var t := Run(Start(m), READING_RUN);
      && t.state == L.AwaitingRemediationApproval && t.processes == map[]
      && |t.attempts| == 1 && t.attempts[0].status == Succeeded && t.attempts[0].session == Some(7)
      && 7 in t.sessions && t.sessions[7] == Session(KEY, Working)
  {
    hide Run;
    RunReads(m);
  }
}
